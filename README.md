# pyscreensaver slideshow core, modelled in Dafny

This project models the sequential logic under the pyscreensaver slideshow:
the geometry that fits a photo to the screen (`resize_fit` in gui.py) or
letterboxes it to an exact size (`resize_with_pad`, `image_resize` in
deprecated.py), the EXIF orientation decision, the caption template that
substitutes `%0`, `%1`, … with names along the photo's path, the padding of
the caption's background box, the configuration loader `Config.from_dict`,
and the image sources of image_streamer.py (the directory listing's filter,
sort and shuffle, the index-based iterator, and the `load_streamer` dispatch).

Images are reduced to their sizes. Python's true division is kept exact as a
fraction: `int()` of a non-negative quotient is its floor and `round()` is
round-half-to-even on the exact value (`PyNum`). Exceptions the code raises
become the `Failure` side of a `Result`.

Modules, one per file: `Wrappers`, `PyNum`, `Geometry` (gui.py resize_fit),
`Letterbox` (deprecated.py), `Orientation` (gui.py rotate_for_orientation),
`PosixPath` (the pathlib behaviour relied on: name, parent, ordering),
`Template` (gui.py caption loop), `Background` (gui.py bbox padding),
`Settings` (image_streamer.py records and from_dict), `Streamers`
(image_streamer.py sources and load_streamer).

Where the written design and the code disagree, the model follows the code:

- `%0` is the file's own name and `%1` its folder, not `%0` the folder.
- The background box moves x0 by `padding[2]`, x1 by `padding[0]`, y0 by
  `padding[3]` and y1 by `padding[1]`, whatever the four entries are called.
- The padding split is `round(total / 2)` with ties to even, so a total of 3
  puts 2 on top and 1 below; only totals of the form 4k + 1 put the odd pixel
  at the bottom or right.
- Paths sort by their components (`/a/b` before `/a-c`), not by their text.
- `load_streamer` fails for every type other than `DirectoryStreamer`,
  `FTPStreamer` included, at the `data['type']` subscript.
- The loop guard `i != 50` bounds the passes, but `%50` is still rewritten
  (as `%5` followed by `0`) whenever the loop makes six passes or more, and a
  relative path always makes 50 passes, replacing placeholders beyond its
  depth with `""`.

## Model

| member | source | states |
|---|---|---|
| PyNum.Trunc | gui.py:117-118 | `int()` of a non-negative quotient is its floor: `r * d <= n < (r + 1) * d` |
| PyNum.RoundHalfEven | deprecated.py:8 | `round(n / d)` is within one half of the exact quotient, is even on a tie, and is non-negative for a non-negative numerator |
| PyNum.RoundHalfEvenUnique | deprecated.py:8 | any integer within one half of `n / d`, even on a tie, equals RoundHalfEven: the contract determines `round` |
| PyNum.RoundHalfEvenAtMost | deprecated.py:34 | rounding is monotone against an integer bound: `n / d <= k` gives `round(n / d) <= k` |
| PyNum.HalfSplit | deprecated.py:23-25 | `top = round(total / 2)` and `bottom = total - top` differ by at most one |
| Geometry.ScaleFactor | gui.py:114-115 | the scale factor is one of the two ratios and is at least as large as both (it is their maximum) |
| Geometry.ResizeFit | gui.py:110-121 | fails (ZeroDivisionError) exactly for a zero target or a 0x0 image; otherwise the size fits the target, equals the target width when `iw / tw >= ih / th` (the target height otherwise), and the other dimension is the exact proportional length rounded down |
| Geometry.ResizeFitFloorExample | gui.py:114-121 | a 3841x2160 image into 1920x1080 becomes 1920x1079: the width fills, the height is rounded down |
| Geometry.ResizeFitEnlarges | gui.py:114-119 | an image smaller than the target in both dimensions is enlarged in both and strictly in one: no clamping of the scale factor |
| Letterbox.PadsTopBottom | deprecated.py:10 | the top/bottom branch is taken only for an image wider than tall whose height scaled to the target width is at most half a pixel over the target height |
| Letterbox.PadTo | deprecated.py:10-54 | per branch: the scaled size is `(tw, round(tw * ih / iw))` or `(round(th * iw / ih), th)`, the bordered image is the scaled size plus the borders and is exactly target-sized, the unused border pair is zero, the split is `round(total / 2)` first, the inverse scale is `iw / tw` or `ih / th`; it fails with AssertionFailed exactly when the scaled length overflows the target and otherwise with ZeroDivisionError exactly for a zero target |
| Letterbox.Border | deprecated.py:46-54 | fails the assertions exactly when a border is negative, then ZeroDivisionError for a zero scale; otherwise returns the bordered size and `1 / scale` |
| Letterbox.RoundHalfEvenNegative | deprecated.py:40-49 | a negative total padding always leaves one half negative, so the assertions fire exactly for a negative total |
| Letterbox.ResizeWithPad | deprecated.py:4-54 | every success is exactly `target_width x target_height`; a zero image dimension divides by zero |
| Letterbox.ResizeWithPadBranch | deprecated.py:10-44 | top/bottom padding iff `iw > ih` and `round(ih * tw / iw) <= th`, then width `tw`, height plus borders `th`, no left/right border, inverse `iw / tw`, and no assertion failure; otherwise height `th`, width plus borders `tw`, no top/bottom border, inverse `ih / th` |
| Letterbox.ResizeWithPadFails | deprecated.py:29-49 | for positive sizes, the assertions fail exactly when the image is not wider than tall and scaled to the target height is wider than the target |
| Letterbox.WiderThanTarget | deprecated.py:29-42 | when the height for the full target width exceeds the target height, the width for the full target height fits the target width |
| Letterbox.SquareIntoNarrowTargetFails | deprecated.py:10-49 | a 100x100 image into a 50x100 target fails the `left >= 0` assertion |
| Letterbox.ResizeWithPadFixed | deprecated.py:10-44 | with the branch test reduced to `round(ih * tw / iw) <= th`, every positive image and target succeeds with exactly the target size |
| Letterbox.SquareIntoNarrowTargetFixed | deprecated.py:10-25 | the corrected variant gives the square image 25 rows of border above and below |
| Letterbox.PaddingSplitExamples | deprecated.py:23-25 | a total of 1 splits (0, 1), a total of 3 splits (2, 1) |
| Letterbox.ImageResize | deprecated.py:57-86 | neither size returns the image; only a height gives `(floor(w * height / h), height)`; a width gives `(width, floor(h * width / w))` and ignores the height; a zero source dimension divides by zero |
| Letterbox.ImageResizeOwnSize | deprecated.py:65-80 | asking for the image's own width or own height gives back its size |
| Orientation.OrientationRotation | gui.py:131-144 | a rotation other than identity iff there is a tag dictionary holding Orientation with value 3, 6 or 8; missing metadata or a missing key gives identity |
| Orientation.RotatedSize | gui.py:136-140 | a quarter turn exchanges width and height, a half turn keeps the size; the area never changes |
| Orientation.RotateForOrientation | gui.py:129-146 | with identity the image is returned unchanged; otherwise its size is the rotated size |
| Orientation.NoMetadataIsIdentity | gui.py:142-146 | without `_getexif`, with None, or without the tag, the image comes back unchanged and nothing escapes |
| Orientation.RotateForOrientationIdempotent | gui.py:129-146 | correcting twice equals correcting once |
| Orientation.RotationUprights | gui.py:135-140 | for tags 1, 3, 6 and 8 the counter-clockwise rotation chosen is the clockwise turn the Exif Orientation value asks for (180, 90, 270 degrees) |
| PosixPath.Parent | gui.py:191-195 | `parent` drops the last component and keeps the root flag; `/` and `.` are their own parents |
| PosixPath.Ancestor | gui.py:195 | the `i`-th parent is the path cut `i` components short, never below `/` or `.` |
| PosixPath.PathLeTotal | image_streamer.py:139 | any two paths are ordered one way or the other |
| PosixPath.PathLeTransitive | image_streamer.py:139 | the path order is transitive |
| PosixPath.StrLeAntisymmetric | image_streamer.py:139 | two strings each at most the other are equal |
| PosixPath.ComponentOrderExample | image_streamer.py:139 | `/a/b` sorts before `/a-c`, although the string `"/a/b"` is greater than `"/a-c"` |
| Template.DecimalDigits | gui.py:192 | `str(i)` is a non-empty string of digits without a leading zero whose decimal value is `i` |
| Template.Placeholder | gui.py:192 | `f"%{i}"` starts with `%` and has at least one more character |
| Template.PlaceholderDigits | gui.py:192 | `f"%{i}"` is `%` followed by digits whose decimal value is `i` |
| Template.PlaceholderInjective | gui.py:192 | distinct passes look for distinct placeholders |
| Template.Replace | gui.py:192-193 | `str.replace` leaves a text without the placeholder unchanged and turns the placeholder alone into the name |
| Template.ReplaceLeftmost | gui.py:193 | when the leftmost occurrence starts at `n`, `str.replace` keeps the text before it, puts the replacement in its place and goes on after the occurrence: every non-overlapping occurrence is replaced, left to right |
| Template.StepWithoutPercent | gui.py:192-193 | one pass leaves a text without `%` unchanged |
| Template.PlaceholderAloneBecomesName | gui.py:192-193 | one pass turns the placeholder alone into the name |
| Template.StepCount | gui.py:191 | at most 50 passes; an absolute path stops before its top-level directory; a relative path makes all 50 |
| Template.FormatCaption | gui.py:187-195 | the loop's text is the format with `%0` … `%(n-1)` replaced in turn by the names of the file and its ancestors, `n` = StepCount |
| Template.StopsAtStepCount | gui.py:191-195 | at pass `i` the loop reads the `i`-th ancestor's name and continues exactly while `i` is below StepCount |
| Template.NoPlaceholderUnchanged | gui.py:187-195 | a format without `%` is returned unchanged |
| Template.TopLevelFileUnchanged | gui.py:191 | a file directly under `/` gets no substitution |
| Template.TopLevelDirectoryNeverUsed | gui.py:191-195 | every pass on an absolute path uses a component after the top-level directory |
| Template.FolderAndFileExample | gui.py:187-195 | `%1/%0` under `/photos/2023/beach.jpg` gives `2023/beach.jpg` |
| Template.PercentTenExample | gui.py:192-193 | `%10` under `/photos/2023/beach.jpg` gives `20230`: pass 1 rewrites it as `%1` then `0` |
| Background.Padded | gui.py:214-217 | the padded box encloses the text box iff the four padding entries are non-negative, and grows by `padding[0] + padding[2]` in width and `padding[1] + padding[3]` in height |
| Background.PadBox | gui.py:211-217 | the in-place updates leave exactly the padded box in the list |
| Settings.BindKeywords | image_streamer.py:52-54 | a dataclass call with `**arg` succeeds iff `arg` is a mapping whose keys are fields and include every required field |
| Settings.MakeTextConfig | image_streamer.py:26-37 | `_TextConfig(**m)` succeeds iff `m` is a mapping of text fields; each field is the given value or its default (10, 10, 24, white, Arial, `%0`, bold, nw, None, None, 235) |
| Settings.MakeStreamerConfig | image_streamer.py:11-22 | `_StreamerConfig(**m)` needs `type` and `path`, accepts only its fields, and takes each given value, and defaults randomize to False, extensions to jpg/png/jpeg, pattern to `*`, host to None, passwd and user to `""` |
| Settings.MakeConfig | image_streamer.py:56-60 | succeeds iff the remaining keys are all Config fields, else names the unexpected ones; the record holds the given streamer and text, and fullscreen, timeout, mode and initial_sleep given or defaulted to True, 5, "endless", 5 |
| Settings.TextOf | image_streamer.py:51-52 | an absent or null `text` gives None; any other value gives `_TextConfig(**text)` or its error |
| Settings.ParseConfig | image_streamer.py:49-60 | loading succeeds iff the text is valid, `streamer` is present and valid and every other key is a Config field; then the text is `_TextConfig(**text)` (None when absent or null), the streamer is `_StreamerConfig(**streamer)` and fullscreen, timeout, mode and initial_sleep are given or default to True, 5, "endless", 5; a missing `streamer` is a KeyError once the text is valid |
| Settings.FromDict | image_streamer.py:49-60 | returns what ParseConfig says and leaves the caller's dict without `text` and, unless the text failed first, without `streamer` |
| Settings.MinimalConfigDefaults | image_streamer.py:11-47 | a configuration naming only type and path of its streamer loads with every default |
| Settings.UnknownKeyRejected | image_streamer.py:56-60 | any leftover key that is not a Config field makes from_dict fail |
| Streamers.Lower | image_streamer.py:136 | lower-casing keeps the length and lower-cases each character |
| Streamers.Matches | image_streamer.py:135-137 | an empty extension list matches no file; a matching file name has a `.` right before a tail as long as the matching extension |
| Streamers.UpperCaseExtensionNeverMatches | image_streamer.py:135-137 | extensions are compared as given, so one with an upper-case letter matches nothing |
| Streamers.Filter | image_streamer.py:135-139 | a path is kept iff its lower-cased name ends with `.` and an extension, as many times as it was listed |
| Streamers.SortPaths | image_streamer.py:139 | `sorted` yields the same paths (a permutation) in ascending path order |
| Streamers.InsertSorted | image_streamer.py:139 | inserting into a sorted list keeps it sorted |
| Streamers.Shuffle | image_streamer.py:140-141 | `random.shuffle`, for any random draws, yields a permutation of its input |
| Streamers.Streamer.FromDirectory | image_streamer.py:134-144 | `_current` starts at 0; without randomize, `paths` is the sorted filtered listing; with it, a permutation of that listing |
| Streamers.Streamer.Length | image_streamer.py:146-147 | `__len__` is never below the iterator's position |
| Streamers.Streamer.Iter | image_streamer.py:77-78 | `__iter__` returns the streamer itself |
| Streamers.Streamer.Next | image_streamer.py:80-86 | yields `paths[_current]` and advances by one, or raises StopIteration at `len(paths)` and keeps doing so; `_current` never exceeds `len(paths)` |
| Streamers.Drain | image_streamer.py:77-86 | iterating yields the remaining paths in order and leaves the streamer exhausted |
| Streamers.TraverseTwice | image_streamer.py:77-86 | a fresh streamer yields exactly its `paths`, and a second traversal yields nothing |
| Streamers.LoadStreamer | image_streamer.py:160-181 | succeeds iff the type is `DirectoryStreamer`, passing path, extensions, pattern and randomize; every other type fails at the subscript |

## Findings

| source | as written | input that shows it | evidently intended | confidence | as-written member | corrected member |
|---|---|---|---|---|---|---|
| deprecated.py:10 | `ratio > 1.0 and resized_height <= target_height` sends every image that is not wider than tall to the left/right branch, even when scaled to the target height it is wider than the target | a 100x100 image into a 50x100 target: new width 100, `left = -25`, the `left >= 0` assertion fails | pad top/bottom whenever the image scaled to the target width fits the target height, so that every positive image and target give exactly the target size | medium, not executed | Letterbox.SquareIntoNarrowTargetFails | Letterbox.ResizeWithPadFixed |

## Left out

- Pixel work: PIL's `resize`, `transpose`, `Image.open` and cv2's `resize` and `copyMakeBorder` are foreign calls; only the sizes, borders and decisions handed to them are modelled. A zero size handed to them (for example `resize_fit` of a 1x10000 image into 100x100 asks for width 0) is not modelled as their failure.
- Floating point: Python computes the quotients in binary floating point; the model uses exact rationals, so at a boundary the real program can be one pixel off (deprecated.py:14 computes `scale * ih` where line 8 computes `ih * tw / iw`, which the model treats as equal).
- The producer/consumer handoff and pacing (`update_global_state`, `update_image`, `main_thread` polling, `main`): asyncio and Tk event-loop concurrency.
- Window, keyboard, fullscreen, canvas drawing, font measurement and the viewport guard `w == 1 or h == 1`: user interface.
- The background box is reachable only through `config.text.background`, which `_TextConfig` does not define; its arithmetic is modelled on its own.
- FTPStreamer: network I/O. Its paths are strings, on which the caption loop's `.parent` would fail; that is not modelled.
- Filesystem and YAML access (`rglob`, `load_config`, the `__main__` demo): the `rglob` result and the loaded mapping are inputs. YAML floats and non-string mapping keys are not part of `Settings.Value`.
- `random.shuffle`'s random source: its draws are an input, constrained to the ranges the generator guarantees.
- The contrast-aware text colour: its configuration fields exist but no code chooses a colour.
- `get_orientation_exif_tag`: the Orientation key is fixed at 0x0112, the value Pillow's tag table holds; its ValueError for a table without the key is not modelled. EXIF values other than integers are not modelled (they never equal 3, 6 or 8).
- Settings.BindKeywords: Python names only the first unexpected keyword; the model reports the set of them.
- Streamers.Lower: lower-cases ASCII letters only, not the rest of Unicode.
- Streamers.LoadStreamer: returns the arguments of the `DirectoryStreamer` call; building the streamer from YAML values of other types than string, list of strings and bool (which Python would accept or reject only later) is not modelled. `Streamers.Streamer.FromDirectory` takes those arguments already typed.
- Path ordering uses the component list with `/` first for absolute paths; Python 3.12 and later split the text on `/` instead, which differs only for paths that do not share their root, never the case for one listing.
- Streamers.Streamer.Next: yields the path only; the image `get` opens for it is a foreign call.
