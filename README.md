# Camera comparison: a verified model

This project models a small browser tool for comparing cameras. It has four
parts, and the Dafny modules follow them:

- **Resolutions** (`App`, `PixelComparison`): the user ticks megapixel counts (10 to 100 MP). Each one is drawn as a block proportional to its image size in pixels. The blocks are either stacked and centred, largest at the bottom, or shown in a column, smallest first.
- **Sensor formats** (`App`, `SensorComparison`): the same, for nine sensor formats from medium format to 1/3 inch, by their size in millimetres. Stacking and ordering go by area.
- **Focal length** (`FocalLength`): a slider and preset buttons choose a focal length from 10 to 200 mm.
  - A 3:2 rectangle over a reference photo shows what that lens sees. The photo's full width is the 10 mm view.
  - A click moves the rectangle.
  - A 300-pixel-wide preview shows the photo under the rectangle, magnified.
- **Language** (`I18n`, `LanguageToggle`): English or Chinese, remembered in the browser's storage. Every text goes through `t`, which falls back from the current language to English and then to the key itself.

`Js` models the JavaScript array operations the components use: `filter`, a stable `sort` with a numeric comparator, and `reverse`. `Layout` holds the geometry shared by the two comparison views. `NumberText` holds the decimal text JavaScript writes for the numbers the labels show.

State that the components change in place is modelled as classes:
- `App.AppState`: the two selections.
- `I18n.LanguageProvider`: the language and the storage.
- `FocalLength.FocalLengthView`: the focal length, the photo's measured size and the rectangle's position.
- `PixelComparison.PixelComparisonView` and `SensorComparison.SensorComparisonView`: the stacking switch and the container width.

The loop that finds the stacked frame's size is a `for` loop with invariants. The state changes are methods of those classes; the rest is functions and lemmas.

The browser's inputs are parameters:
- the fields of view (see below);
- the measured sizes of the photo and the container;
- the photo's natural size;
- whether an element exists yet;
- the click coordinates.

Numbers are modelled as mathematical reals, and megapixel counts as naturals.

## Model

| member | source | states |
|---|---|---|
| Js.Without | src/App.tsx:31 | `filter(e => e !== x)` removes every occurrence of `x` and keeps every other element with its count |
| Js.SortBy | src/App.tsx:32 | a sort by a numeric key returns a permutation of its input in non-decreasing key order |
| Js.InsertBy | src/App.tsx:32 | one step of the stable sort: inserting into a sorted list keeps it sorted and adds exactly that element |
| Js.Reverse | src/components/PixelComparison.tsx:136 | `reverse()` on a copy puts element `i` at position `n-1-i` |
| Js.ReverseMultiset | src/components/PixelComparison.tsx:136 | reversing keeps the elements and their counts |
| Js.ReverseSortedBy | src/components/PixelComparison.tsx:136 | reversing a list sorted by a key sorts it by the opposite key |
| Js.WithoutSorted | src/App.tsx:31 | filtering keeps a sorted list sorted |
| Js.WithoutStrictlySorted | src/App.tsx:31 | filtering keeps a strictly sorted list strictly sorted |
| Js.WithoutDistinct | src/App.tsx:39 | filtering keeps a list free of duplicates |
| Js.WithoutAbsent | src/App.tsx:31 | filtering out an absent value changes nothing |
| Js.WithoutConcat | src/App.tsx:39 | filtering distributes over concatenation, so order is kept |
| Js.WithoutInsertBy | src/App.tsx:31-32 | inserting a value that was absent and filtering it out again restores the sorted list |
| Js.InsertByWithout | src/App.tsx:31-32 | removing a value from a strictly sorted list and inserting it again restores the list |
| Js.InsertByStrictlySorted | src/App.tsx:32 | inserting an absent value keeps a list strictly sorted |
| Js.SortBySorted | src/App.tsx:32 | sorting an already sorted list changes nothing |
| Layout.Max | src/components/PixelComparison.tsx:61-62 | `Math.max` is an upper bound of both arguments and equals one of them |
| Layout.Min | src/components/PixelComparison.tsx:42 | `Math.min` is a lower bound of both arguments and equals one of them |
| Layout.MaxExtentIsTight | src/components/PixelComparison.tsx:56-63 | the frame's width and height are 0 for an empty selection, each equals some block's when the selection is non-empty, and they are the least upper bound of the blocks |
| Layout.Stack | src/components/PixelComparison.tsx:96-103 | stacked block `i` keeps its size and gets `zIndex` `i + 1` |
| Layout.StackCentred | src/components/PixelComparison.tsx:101-102 | offsets of half the free space put every block's centre on the frame's centre, and the block inside a frame that bounds it |
| Layout.StackNested | src/components/SensorComparison.tsx:104-111 | in largest-first order each later block lies inside every earlier one and is drawn above it |
| NumberText.DecimalText | src/App.tsx:53 | `${n}` of a natural below 10^21 (every count the app offers) is a non-empty string of digits without a leading zero |
| NumberText.DecimalRoundTrip | src/App.tsx:53 | reading back the decimal text of a number gives the number |
| NumberText.DecimalTextInjective | src/App.tsx:53 | different numbers get different texts |
| NumberText.TenthsText | src/App.tsx:50 | `${pixel / 10}` is written `w` or `w.d`; it has a decimal point exactly when `pixel` is not a multiple of 10, and is the decimal text of `pixel / 10` when it is |
| NumberText.TenthsRoundTrip | src/App.tsx:50 | reading back the text of `pixel / 10` (whole part times ten plus the tenths digit) gives `pixel` for every natural |
| NumberText.TenthsTextInjective | src/App.tsx:50 | different counts get different texts of `pixel / 10` |
| I18n.Translate | src/i18n/languageContext.tsx:42-44 | `t` returns the current language's non-empty entry, else the English non-empty entry, else the key; an empty entry counts as missing |
| I18n.TranslateIsEntryOrKey | src/i18n/languageContext.tsx:43 | `t` always yields a non-empty table entry or the key, so a non-empty key never translates to "" |
| I18n.MissingEntryReadsAsEnglish | src/i18n/languageContext.tsx:43 | a key the current language lacks reads exactly as in English |
| I18n.InitialLanguage | src/i18n/languageContext.tsx:32-33 | the app starts in the stored language, or in English when none is stored |
| I18n.LanguageProvider.constructor | src/i18n/languageContext.tsx:32-33 | the provider starts in the language `InitialLanguage` reads from storage |
| I18n.LanguageProvider.ChangeLanguage | src/i18n/languageContext.tsx:36-39 | the language becomes the chosen one, storage records it under `language`, and the next start reads it back |
| I18n.LanguageProvider.T | src/i18n/languageContext.tsx:42-44 | the bound `t` yields the key or a non-empty string |
| I18n.EmptyUnitFallsBackToEnglish | src/i18n/translations.ts:87 | the empty Chinese unit label falls back to the English "Megapixels" |
| LanguageToggle.Other | src/components/LanguageToggle.tsx:8 | a click always switches to the other language |
| LanguageToggle.OtherInvolutive | src/components/LanguageToggle.tsx:8 | two switches come back to the starting language |
| LanguageToggle.LabelKey | src/components/LanguageToggle.tsx:17 | the button's label key names the language a click switches to, never the current one |
| LanguageToggle.LabelNamesTarget | src/components/LanguageToggle.tsx:17 | with the app's tables the label reads "中文" in English and "English" in Chinese |
| LanguageToggle.Toggle | src/components/LanguageToggle.tsx:7-10 | a click changes the language to the other one and stores it |
| LanguageToggle.ToggleTwice | src/components/LanguageToggle.tsx:7-10 | two clicks restore the language, and storage then holds it |
| App.TogglePixel | src/App.tsx:28-34 | toggling flips the value's membership and keeps every other value; a removal drops all its occurrences; an addition yields a sorted permutation of the old selection plus the value |
| App.TogglePixelKeepsStrictlyAscending | src/App.tsx:28-34 | a strictly ascending selection stays strictly ascending |
| App.InsertKeepsStrictlyAscending | src/App.tsx:32 | adding an absent value to a strictly ascending selection and re-sorting inserts it in place and keeps the selection strictly ascending |
| App.AppendThenSort | src/App.tsx:32 | appending to a sorted selection and sorting inserts the value in place |
| App.TogglePixelTwice | src/App.tsx:28-34 | toggling a resolution twice restores a strictly ascending selection |
| App.ToggleSensor | src/App.tsx:36-42 | toggling flips the key's membership and keeps every other key; an addition appends at the end, keeping the earlier order |
| App.SensorAddThenRemove | src/App.tsx:36-42 | adding a sensor and removing it again restores the selection |
| App.SensorRemoveThenAdd | src/App.tsx:36-42 | removing a sensor and adding it again moves it to the end: the same keys, but a different list unless it was last |
| App.OccursOnce | src/App.tsx:36-42 | a key of a duplicate-free selection occurs exactly once |
| App.SensorReorderExample | src/App.tsx:12 | unticking and re-ticking full frame turns the default sensors into ["aps-c", "full-frame"] |
| App.InitialSelectionsValid | src/App.tsx:11-26 | the default selections are offered options, the resolutions strictly ascending and the sensors free of duplicates |
| App.FormatMegapixels | src/App.tsx:45-55 | in Chinese 100 is "1亿像素" and a multiple of ten `p` is `p/10` followed by "千万像素"; in English the label is the number, a space and the translated unit |
| App.EnglishLabelsDistinct | src/App.tsx:53 | distinct resolutions get distinct English labels |
| App.ChineseLabelsDistinct | src/App.tsx:46-50 | distinct resolutions get distinct Chinese labels |
| App.MegapixelLabelExamples | src/App.tsx:45-55 | 40 reads "40 Megapixels" and "4千万像素", and 100 reads "1亿像素" |
| App.SensorName | src/App.tsx:58-74 | in Chinese the name is `t('sensor.' + key)`; in English it is the fixed name, and undefined for a key without one |
| App.SensorNamesComplete | src/App.tsx:58-74 | every offered sensor has an English name and a non-empty Chinese name other than its key |
| App.HasChineseName | src/i18n/translations.ts:134-142 | a sensor whose table entry is non-empty and not its key has that entry as its Chinese name |
| App.AppState.constructor | src/App.tsx:11-12 | the app starts with 10 and 40 MP, and with full frame and APS-C |
| App.AppState.HandleTogglePixel | src/App.tsx:28-34 | a resolution checkbox applies `TogglePixel`, keeps the selections valid and leaves the sensors alone |
| App.AppState.HandleToggleSensor | src/App.tsx:36-42 | a sensor checkbox applies `ToggleSensor`, keeps the selections valid and leaves the resolutions alone |
| FocalLength.FocalLengthsOnSlider | src/components/FocalLength.tsx:114-174 | every preset and the initial 50 mm lie on the 10 to 200 mm slider; the presets ascend; as a constants check, the slider's lower end equals the 10 mm that `calculateViewRect` takes as the photo's full width (the field of view of that focal length is the separate `widestFov` input) |
| FocalLength.CalculateViewRect | src/components/FocalLength.tsx:30-48 | no rectangle before the photo is measured; after that a 3:2 rectangle whose share of the photo's width is `fov / widestFov` |
| FocalLength.FullWidthAtWidestFov | src/components/FocalLength.tsx:33-44 | at the widest field of view the rectangle spans the photo's width |
| FocalLength.ViewRectWithinImage | src/components/FocalLength.tsx:38-45 | a narrower field of view gives a narrower rectangle; it is never wider than the photo, and no taller when the photo is at most 3:2 |
| FocalLength.Clamp | src/components/FocalLength.tsx:70-71 | the clamp is at least 0 and at most the bound; it is 0 for an empty range and keeps a value already in range |
| FocalLength.Centred | src/components/FocalLength.tsx:83 | the recentred position leaves equal margins on both sides |
| FocalLength.CentredInside | src/components/FocalLength.tsx:104-109 | a centred rectangle that fits the photo lies inside it |
| FocalLength.ZoomAxis | src/components/FocalLength.tsx:125-143 | on one axis the preview's background extent and offset are the displayed ones times `box / span`; the natural size cancels out |
| FocalLength.CropViewStyle | src/components/FocalLength.tsx:117-147 | no style without the photo element; non-finite values exactly when a size is zero; otherwise a 300-pixel box showing the photo at zoom 300 / rectangle width, shifted by the rectangle's position |
| FocalLength.PreviewShowsViewRect | src/components/FocalLength.tsx:137-145 | the preview box is 3:2 and its background spans exactly the rectangle's area of the photo |
| FocalLength.FocalLengthView.ViewRect | src/components/FocalLength.tsx:50 | the current render's `viewRect` is 3:2 and never wider than the measured photo |
| FocalLength.FocalLengthView.constructor | src/components/FocalLength.tsx:17-19 | the view starts at 50 mm with an unmeasured photo at position (0, 0) |
| FocalLength.FocalLengthView.UpdateImageSize | src/components/FocalLength.tsx:78-85 | when the elements exist, the measured size is recorded and the rectangle of the installing render is centred on it; otherwise nothing changes |
| FocalLength.FocalLengthView.ImageLoaded | src/components/FocalLength.tsx:77-100 | after the load handler and the effect's re-run, the photo's size is the measured one and the current rectangle is centred |
| FocalLength.FocalLengthView.SetFocalLength | src/components/FocalLength.tsx:103-111 | choosing the current focal length again changes nothing; a different focal length recentres the new rectangle when the photo is measured, and leaves the position alone otherwise; the recentred rectangle lies inside a photo that is at most 3:2 |
| FocalLength.FocalLengthView.HandleContainerClick | src/components/FocalLength.tsx:53-74 | when both elements exist, the rectangle is centred on the click and clamped into the container: never above or left of it, inside it when it fits, and exactly on the click when no clamp applies |
| PixelComparison.OptionsHaveDimensions | src/components/PixelComparison.tsx:8-15 | the offered resolutions are exactly those the table has sizes for |
| PixelComparison.DimensionsGrowWithMegapixels | src/components/PixelComparison.tsx:8-15 | a higher count is never narrower or shorter, and 100 MP is the widest and tallest |
| PixelComparison.CalculateDimensions | src/components/PixelComparison.tsx:36-50 | a block keeps its image's aspect ratio; 100 MP is exactly min(container, 11648) wide; no block is wider or negative |
| PixelComparison.SameScale | src/components/PixelComparison.tsx:43-47 | every block is scaled by the one factor: any two blocks' widths, and their heights, are in the ratio of the two image sizes, so with the 100 MP width fixed each block is its image size times min(container, 11648) / 11648 |
| PixelComparison.HigherResolutionNotSmaller | src/components/PixelComparison.tsx:43-47 | at a non-negative container width a higher count gives a block at least as wide and as tall |
| PixelComparison.SortedPixels | src/components/PixelComparison.tsx:53 | `sortedPixels` is a permutation of the selection, largest first |
| PixelComparison.ColumnIsAscending | src/components/PixelComparison.tsx:136 | the column view shows the same resolutions, smallest first |
| PixelComparison.MaxExtent | src/components/PixelComparison.tsx:56-63 | the loop's maxWidth and maxHeight are the selection's maximum extent in the sense of `Layout.MaxExtentIsTight` |
| PixelComparison.FrameWidth | src/components/PixelComparison.tsx:38-42 | the stacked frame is never wider than min(container, 11648), and exactly that wide when 100 MP is selected |
| PixelComparison.StackedBlocksNest | src/components/PixelComparison.tsx:96-103 | in the stacked view every block lies in the frame, and each smaller resolution lies inside every larger one and above it |
| PixelComparison.PixelComparisonView.constructor | src/components/PixelComparison.tsx:18-19 | the view starts unstacked with container width 0 |
| PixelComparison.PixelComparisonView.ToggleStacked | src/components/PixelComparison.tsx:76 | the switch flips stacking and nothing else |
| PixelComparison.PixelComparisonView.UpdateWidth | src/components/PixelComparison.tsx:24-28 | the container width becomes the element's width less 48 when the element exists |
| PixelComparison.PixelComparisonView.Render | src/components/PixelComparison.tsx:52-166 | stacked: the sorted blocks placed in the frame of maximum extent; otherwise the reversed order as a column |
| SensorComparison.OptionsHaveDimensions | src/components/SensorComparison.tsx:9-19 | the offered formats are exactly the table's keys, and each block's name is the app's English name |
| SensorComparison.NextIsSmaller | src/components/SensorComparison.tsx:9-19 | each format in table order is narrower, shorter and smaller in area than the one before |
| SensorComparison.LaterIsSmaller | src/components/SensorComparison.tsx:9-19 | width, height and area strictly decrease along the table |
| SensorComparison.Area | src/components/SensorComparison.tsx:59-60 | the comparator's area is positive for every format of the table |
| SensorComparison.AreaOrderIsSizeOrder | src/components/SensorComparison.tsx:58-61 | a format with no more area is neither wider nor taller, so ordering by area orders by both sides |
| SensorComparison.ReferenceIsLargest | src/components/SensorComparison.tsx:43 | medium format is the widest and tallest format |
| SensorComparison.CalculateDimensions | src/components/SensorComparison.tsx:41-55 | a block keeps its sensor's aspect ratio; medium format is exactly min(container, 600) wide; no block is wider or negative |
| SensorComparison.SameScale | src/components/SensorComparison.tsx:47-52 | every block is scaled by the one factor: any two blocks' widths, and their heights, are in the ratio of the two sensor sizes, so with the medium-format width fixed each block is its size times min(container, 600) / 53 |
| SensorComparison.LargerAreaNotSmaller | src/components/SensorComparison.tsx:47-52 | at a non-negative container width a format of larger area gets a block at least as wide and as tall |
| SensorComparison.SortedSensors | src/components/SensorComparison.tsx:58-61 | `sortedSensors` is a permutation of the selection in non-increasing area |
| SensorComparison.ColumnIsAscending | src/components/SensorComparison.tsx:144 | the column view shows the same formats in non-decreasing area |
| SensorComparison.MaxExtent | src/components/SensorComparison.tsx:64-71 | the loop's maxWidth and maxHeight are the selection's maximum extent |
| SensorComparison.FrameWidth | src/components/SensorComparison.tsx:43-48 | the stacked frame is never wider than min(container, 600), and exactly that wide when medium format is selected |
| SensorComparison.StackedBlocksNest | src/components/SensorComparison.tsx:104-111 | in the stacked view every block lies in the frame, and each smaller format lies inside every larger one and above it |
| SensorComparison.SensorComparisonView.constructor | src/components/SensorComparison.tsx:23-24 | the view starts unstacked with container width 0 |
| SensorComparison.SensorComparisonView.ToggleStacked | src/components/SensorComparison.tsx:84 | the switch flips stacking and nothing else |
| SensorComparison.SensorComparisonView.UpdateWidth | src/components/SensorComparison.tsx:29-33 | the container width becomes the element's width less 48 when the element exists |
| SensorComparison.SensorComparisonView.Render | src/components/SensorComparison.tsx:57-174 | stacked: the area-sorted blocks placed in the frame of maximum extent; otherwise the reversed order as a column |

## Left out

- `focalLengthToFOV` (src/components/FocalLength.tsx:8-13) uses `atan` and π, which Dafny's reals do not have. Each operation instead receives the current field of view (`fov`) and the one at 10 mm (`widestFov`) as numbers.
  - `FocalLengthView.Valid` requires `0 < fov <= widestFov`. This is what the decreasing arctangent gives on the 10 to 200 mm slider.
  - The displayed `fov.toFixed(1)` is not modelled.
- Floating point is not modelled: all arithmetic is exact over reals. Number formatting is left out except for the non-negative integers and tenths that the megapixel labels print. `toFixed`, `toLocaleString`, and the pixel and millimetre texts on the blocks are not modelled.
- FocalLength.CropViewStyle: the CSS text is not modelled. The model gives the numbers the style is built from. It does not model that the template `-${v}px` prints `--…px` when `v` is negative, which happens when the rectangle is taller than the photo. NaN and Infinity are collapsed into one `NonFinite` result, and the `backgroundImage` URL is not modelled.
- React's render and effect scheduling, refs and event listeners are not modelled. Only their state changes are: each handler is a method, and whether a ref is set is a boolean parameter.
  - FocalLengthView.SetFocalLength: does not model the re-measurement that follows through the resize effect. When the size has not changed, that re-measurement centres the same rectangle again.
  - FocalLengthView.ImageLoaded: models only the common sequence (load, then the re-run while the photo is `complete`), not every interleaving of resize and load events.
- The minimum block sizes (40×30 px) and the `maxWidth: 100%` / `minHeight: 200px` of the frame are CSS and not modelled. `Layout.Stack` gives the sizes and offsets the component computes, not the sizes the browser then draws.
- `localStorage` is a map from keys to languages. The unchecked cast `as Language` of an arbitrary stored string, and the fallback for a stored empty string, are not modelled.
- `translations.ts` is transcribed only for the entries the model reasons about: the megapixel unit, the language names and the Chinese sensor names. The other static texts are left out.
- App.AppState.HandleTogglePixel, App.AppState.HandleToggleSensor: require an offered option, as the checkboxes only ever pass one. `App.TogglePixel` and `App.ToggleSensor` themselves accept any value.
- App.FormatMegapixels: megapixel counts are naturals. Negative and fractional counts, which the app never offers, are not modelled.
- NumberText.DecimalText: models `${n}` of a natural as its plain digits. JavaScript writes a number from 10^21 on in exponent form (`1e+21`) and does not hold integers above 2^53 exactly; so `DecimalText` and `App.EnglishLabelsDistinct` describe the labels only below those bounds, which every offered count (10 to 100) is.
- PixelComparison.CalculateDimensions, SensorComparison.CalculateDimensions: require a key of the table. For any other key the component throws reading `undefined.width`.
- SensorComparison.Area: the comparator of `sortedSensors` would throw on a key outside the table. The model gives such a key area 0, and no app selection contains one.
- Tab navigation, the image gallery, the entry point, image loading and the placeholder swap on error are outside the modelled core: src/components/ImageGallery.tsx and src/main.tsx are not part of this model.
- The code, and so the model, behaves as follows:
  - A click clamps the rectangle into the container's bounding box, not into the photo's measured size.
  - The click guard checks that the container and rectangle elements exist, not that the photo has been measured.
  - A focal-length change recentres only when the photo's size is known.
  - Choosing the focal length already selected changes no state, so neither effect runs and the rectangle keeps its position.
  - The recentring on load and resize uses the rectangle of the render that installed the handler. It settles to the centred position only after the effect runs again (`ImageLoaded`).
  - "Position + rectangle ≤ photo" can fail on a photo wider than 3:2, because at the widest focal lengths the 3:2 rectangle is taller than the photo. The containment lemmas therefore assume a photo at most 3:2.
