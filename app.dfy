// The application shell: the selected resolutions and sensor formats, how a
// checkbox toggles them, and how their labels are written in each language.
module App {
  import opened Js
  import opened I18n
  import opened NumberText

  /** The resolutions offered, in megapixels. */
  const MEGAPIXEL_OPTIONS: seq<nat> := [10, 20, 30, 40, 60, 100]

  /** The sensor formats offered, by key. */
  const SENSOR_OPTIONS: seq<string> := [
    "medium-format", "full-frame", "aps-c", "m43", "1-inch",
    "2-3-inch", "1-1.7-inch", "1-2.3-inch", "1-3-inch"
  ]

  /** The selections the app starts with. */
  const INITIAL_PIXELS: seq<nat> := [10, 40]
  const INITIAL_SENSORS: seq<string> := ["full-frame", "aps-c"]

  /** The sort key of the comparator `(a, b) => a - b`. */
  function Ascending(p: nat): real {
    p as real
  }

  /** `handleTogglePixel`: a selected value is filtered out (every occurrence),
      an unselected one is appended and the list re-sorted ascending. */
  function TogglePixel(prev: seq<nat>, pixel: nat): (r: seq<nat>)
    ensures pixel in r <==> pixel !in prev
    ensures forall q :: q != pixel ==> (q in r <==> q in prev)
    ensures pixel in prev ==> multiset(r) == multiset(prev)[pixel := 0]
    ensures pixel !in prev ==> SortedBy(r, Ascending) && multiset(r) == multiset(prev) + multiset{pixel}
  {
    if pixel in prev then Without(prev, pixel) else SortBy(prev + [pixel], Ascending)
  }

  /** A strictly ascending selection stays strictly ascending. */
  lemma TogglePixelKeepsStrictlyAscending(prev: seq<nat>, pixel: nat)
    requires StrictlySortedBy(prev, Ascending)
    ensures StrictlySortedBy(TogglePixel(prev, pixel), Ascending)
  {
    var r := TogglePixel(prev, pixel);
    if pixel in prev {
      assert r == Without(prev, pixel);
      WithoutStrictlySorted(prev, pixel, Ascending);
    } else {
      assert r == SortBy(prev + [pixel], Ascending);
      InsertKeepsStrictlyAscending(prev, pixel);
    }
  }

  /** Adding an absent value to a strictly ascending selection inserts it in
      place and keeps the selection strictly ascending. */
  lemma InsertKeepsStrictlyAscending(prev: seq<nat>, pixel: nat)
    requires StrictlySortedBy(prev, Ascending) && pixel !in prev
    ensures SortBy(prev + [pixel], Ascending) == InsertBy(pixel, prev, Ascending)
    ensures StrictlySortedBy(InsertBy(pixel, prev, Ascending), Ascending)
  {
    StrictlySortedIsSorted(prev, Ascending);
    AppendThenSort(prev, pixel);
    var key := Ascending;
    assert forall y :: y in prev ==> key(y) != key(pixel) by {
      forall y | y in prev ensures key(y) != key(pixel) {
        assert y != pixel;
      }
    }
    InsertByStrictlySorted(pixel, prev, key);
  }

  /** Sorting a sorted list with one value appended inserts that value. */
  lemma AppendThenSort(prev: seq<nat>, pixel: nat)
    requires SortedBy(prev, Ascending)
    ensures SortBy(prev + [pixel], Ascending) == InsertBy(pixel, prev, Ascending)
  {
    var s := prev + [pixel];
    assert s[..|s| - 1] == prev;
    SortBySorted(prev, Ascending);
  }

  /** On a strictly ascending selection, toggling a value twice restores it. */
  lemma TogglePixelTwice(prev: seq<nat>, pixel: nat)
    requires StrictlySortedBy(prev, Ascending)
    ensures TogglePixel(TogglePixel(prev, pixel), pixel) == prev
  {
    StrictlySortedIsSorted(prev, Ascending);
    if pixel in prev {
      var removed := Without(prev, pixel);
      InsertByWithout(pixel, prev, Ascending);
      AppendThenSort(removed, pixel);
    } else {
      AppendThenSort(prev, pixel);
      WithoutInsertBy(pixel, prev, Ascending);
      WithoutAbsent(prev, pixel);
    }
  }

  /** `handleToggleSensor`: a selected key is filtered out, an unselected one
      appended at the end, without sorting. */
  function ToggleSensor(prev: seq<string>, sensor: string): (r: seq<string>)
    ensures sensor in r <==> sensor !in prev
    ensures forall s :: s != sensor ==> (s in r <==> s in prev)
    ensures sensor in prev ==> multiset(r) == multiset(prev)[sensor := 0]
    ensures sensor !in prev ==> |r| == |prev| + 1 && r[..|prev|] == prev && r[|prev|] == sensor
  {
    if sensor in prev then Without(prev, sensor) else prev + [sensor]
  }

  /** Adding a sensor and removing it again restores the selection. */
  lemma SensorAddThenRemove(prev: seq<string>, sensor: string)
    requires sensor !in prev
    ensures ToggleSensor(ToggleSensor(prev, sensor), sensor) == prev
  {
    WithoutConcat(prev, [sensor], sensor);
    WithoutAbsent(prev, sensor);
  }

  /** Removing a sensor and adding it again moves it to the end: the same
      sensors, in another order unless it was already last. */
  lemma SensorRemoveThenAdd(prev: seq<string>, sensor: string)
    requires sensor in prev
    ensures ToggleSensor(ToggleSensor(prev, sensor), sensor) == Without(prev, sensor) + [sensor]
    ensures Distinct(prev) ==> multiset(ToggleSensor(ToggleSensor(prev, sensor), sensor)) == multiset(prev)
    ensures prev[|prev| - 1] != sensor ==> ToggleSensor(ToggleSensor(prev, sensor), sensor) != prev
  {
    var removed := Without(prev, sensor);
    var r := removed + [sensor];
    assert ToggleSensor(prev, sensor) == removed;
    if Distinct(prev) {
      OccursOnce(prev, sensor);
      assert multiset(prev)[sensor := 0] + multiset{sensor} == multiset(prev);
    }
    if |r| == |prev| {
      assert r[|prev| - 1] == sensor;
    }
  }

  /** A key of a selection without duplicates occurs in it exactly once. */
  lemma OccursOnce(s: seq<string>, x: string)
    requires Distinct(s) && x in s
    ensures multiset(s)[x] == 1
  {
    var i :| 0 <= i < |s| && s[i] == x;
    assert s == s[..i] + [x] + s[i + 1..];
    assert x !in s[..i];
    assert x !in s[i + 1..];
  }

  /** The default sensors, after "full-frame" is unticked and ticked again. */
  lemma SensorReorderExample()
    ensures ToggleSensor(ToggleSensor(INITIAL_SENSORS, "full-frame"), "full-frame") == ["aps-c", "full-frame"]
  {
    assert "full-frame" != "aps-c";
    assert Without(INITIAL_SENSORS, "full-frame") == ["aps-c"];
  }

  /** The initial selections are offered options, the resolutions strictly
      ascending and the sensors free of duplicates. */
  lemma InitialSelectionsValid()
    ensures StrictlySortedBy(INITIAL_PIXELS, Ascending)
    ensures forall p :: p in INITIAL_PIXELS ==> p in MEGAPIXEL_OPTIONS
    ensures Distinct(INITIAL_SENSORS)
    ensures forall s :: s in INITIAL_SENSORS ==> s in SENSOR_OPTIONS
  {
  }

  /** The label of a resolution checkbox. */
  function FormatMegapixels(ts: Translations, lang: Language, pixel: nat): (r: string)
    ensures lang == Zh && pixel == 100 ==> r == "1亿像素"
    ensures lang == Zh && pixel != 100 ==> r == TenthsText(pixel) + "千万像素"
    ensures lang == Zh && pixel != 100 && pixel % 10 == 0 ==> r == DecimalText(pixel / 10) + "千万像素"
    ensures lang == En ==> r == DecimalText(pixel) + " " + Translate(ts, En, "controls.megapixels")
  {
    if lang == Zh then
      if pixel == 100 then "1亿像素" else TenthsText(pixel) + "千万像素"
    else
      DecimalText(pixel) + " " + Translate(ts, lang, "controls.megapixels")
  }

  /** Two strings that end alike are equal exactly when what precedes agrees. */
  lemma SameSuffix(a: string, b: string, suffix: string)
    requires a + suffix == b + suffix
    ensures a == b
  {
    assert |a| == |b|;
    assert a == (a + suffix)[..|a|];
    assert b == (b + suffix)[..|b|];
  }

  /** In English distinct resolutions get distinct labels. */
  lemma EnglishLabelsDistinct(ts: Translations, a: nat, b: nat)
    requires FormatMegapixels(ts, En, a) == FormatMegapixels(ts, En, b)
    ensures a == b
  {
    var unit := Translate(ts, En, "controls.megapixels");
    SameSuffix(DecimalText(a) + " ", DecimalText(b) + " ", unit);
    SameSuffix(DecimalText(a), DecimalText(b), " ");
    DecimalTextInjective(a, b);
  }

  /** In Chinese distinct resolutions get distinct labels. */
  lemma ChineseLabelsDistinct(ts: Translations, a: nat, b: nat)
    requires FormatMegapixels(ts, Zh, a) == FormatMegapixels(ts, Zh, b)
    ensures a == b
  {
    if a != 100 && b != 100 {
      SameSuffix(TenthsText(a), TenthsText(b), "千万像素");
      TenthsTextInjective(a, b);
    }
  }

  /** Labels of a few offered resolutions with the app's tables. */
  lemma MegapixelLabelExamples()
    ensures FormatMegapixels(TRANSLATIONS, En, 40) == "40 Megapixels"
    ensures FormatMegapixels(TRANSLATIONS, Zh, 40) == "4千万像素"
    ensures FormatMegapixels(TRANSLATIONS, Zh, 100) == "1亿像素"
  {
    assert DecimalText(4) == "4";
    assert DecimalText(40) == "40";
    assert Translate(TRANSLATIONS, En, "controls.megapixels") == "Megapixels";
  }

  /** The fixed English sensor names. */
  const ENGLISH_SENSOR_NAMES: map<string, string> := map[
    "medium-format" := "Medium Format",
    "full-frame" := "Full Frame (35mm)",
    "aps-c" := "APS-C",
    "m43" := "M43",
    "1-inch" := "1 inch",
    "2-3-inch" := "2/3 inch",
    "1-1.7-inch" := "1/1.7 inch",
    "1-2.3-inch" := "1/2.3 inch",
    "1-3-inch" := "1/3 inch"
  ]

  /** `getSensorName`: in Chinese the translation of `sensor.<key>`, otherwise
      the fixed English name (`undefined` for a key not in that table). */
  function SensorName(ts: Translations, lang: Language, key: string): (r: Option<string>)
    ensures lang == Zh ==> r == Some(Translate(ts, Zh, "sensor." + key))
    ensures lang == En ==> (r.Some? <==> key in ENGLISH_SENSOR_NAMES)
    ensures lang == En && key in ENGLISH_SENSOR_NAMES ==> r.value == ENGLISH_SENSOR_NAMES[key]
  {
    if lang == Zh then Some(Translate(ts, lang, "sensor." + key)) else Get(ENGLISH_SENSOR_NAMES, key)
  }

  /** Every offered sensor has a name in both languages: in English the fixed
      one, in Chinese the entry of the app's table, never the bare key. */
  lemma SensorNamesComplete(i: nat)
    requires i < |SENSOR_OPTIONS|
    ensures var key := SENSOR_OPTIONS[i];
      && SensorName(TRANSLATIONS, En, key).Some?
      && "sensor." + key in TRANSLATIONS.zh
      && var zh := SensorName(TRANSLATIONS, Zh, key).value;
         zh == TRANSLATIONS.zh["sensor." + key] && zh != "" && zh != "sensor." + key
  {
    var key := SENSOR_OPTIONS[i];
    if i == 0 {
      HasChineseName(key, "sensor.medium-format");
    } else if i == 1 {
      HasChineseName(key, "sensor.full-frame");
    } else if i == 2 {
      HasChineseName(key, "sensor.aps-c");
    } else if i == 3 {
      HasChineseName(key, "sensor.m43");
    } else if i == 4 {
      HasChineseName(key, "sensor.1-inch");
    } else if i == 5 {
      HasChineseName(key, "sensor.2-3-inch");
    } else if i == 6 {
      HasChineseName(key, "sensor.1-1.7-inch");
    } else if i == 7 {
      HasChineseName(key, "sensor.1-2.3-inch");
    } else {
      HasChineseName(key, "sensor.1-3-inch");
    }
  }

  /** The Chinese name of a sensor whose translation key is `entry`. */
  lemma HasChineseName(key: string, entry: string)
    requires "sensor." + key == entry
    requires entry in TRANSLATIONS.zh && TRANSLATIONS.zh[entry] != "" && TRANSLATIONS.zh[entry] != entry
    ensures "sensor." + key in TRANSLATIONS.zh
    ensures var zh := SensorName(TRANSLATIONS, Zh, key).value;
      zh == TRANSLATIONS.zh["sensor." + key] && zh != "" && zh != "sensor." + key
  {
  }

  /** The state of the app shell that the checkboxes change. */
  class AppState {
    var selectedPixels: seq<nat>
    var selectedSensors: seq<string>

    /** Selections hold offered options only, without duplicates, and the
        resolutions in ascending order. */
    ghost predicate Valid()
      reads this
    {
      && StrictlySortedBy(selectedPixels, Ascending)
      && (forall p :: p in selectedPixels ==> p in MEGAPIXEL_OPTIONS)
      && Distinct(selectedSensors)
      && (forall s :: s in selectedSensors ==> s in SENSOR_OPTIONS)
    }

    constructor()
      ensures Valid()
      ensures selectedPixels == INITIAL_PIXELS && selectedSensors == INITIAL_SENSORS
    {
      selectedPixels := INITIAL_PIXELS;
      selectedSensors := INITIAL_SENSORS;
      InitialSelectionsValid();
    }

    /** A resolution checkbox changed. */
    method HandleTogglePixel(pixel: nat)
      requires Valid() && pixel in MEGAPIXEL_OPTIONS
      modifies this
      ensures Valid()
      ensures selectedPixels == TogglePixel(old(selectedPixels), pixel)
      ensures selectedSensors == old(selectedSensors)
    {
      TogglePixelKeepsStrictlyAscending(selectedPixels, pixel);
      selectedPixels := TogglePixel(selectedPixels, pixel);
    }

    /** A sensor checkbox changed. */
    method HandleToggleSensor(sensor: string)
      requires Valid() && sensor in SENSOR_OPTIONS
      modifies this
      ensures Valid()
      ensures selectedSensors == ToggleSensor(old(selectedSensors), sensor)
      ensures selectedPixels == old(selectedPixels)
    {
      if sensor in selectedSensors {
        WithoutDistinct(selectedSensors, sensor);
      }
      selectedSensors := ToggleSensor(selectedSensors, sensor);
    }
  }
}
