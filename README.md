# Larini quote engine, modelled in Dafny

This project models the core of the Larini quote service (`app.py`). The service turns a partial quote record into a branded A4 PDF. The model covers five parts:

- **Page geometry** (module `Geometry`, `geometry.dfy`). Image heights are scaled to a target width keeping the aspect ratio, and a degenerate image gets height 0. From the footer and header heights come the bottom reservation, the two frame tops and the two usable frame heights. Both frame heights are floored at 100 points. Everything is computed over exact `real`s, and image pixel sizes are parameters.
- **Paragraph styles** (module `Styles`, `styles.dfy`). The four styles of `build_styles` are kept as constant values.
- **The story** (module `Story`, `story.dfy`). `build_story` becomes the method `BuildStory`, which grows a `seq<Block>` as the service grows its list. That includes the loop over the eight included services, split out as `AppendServices`. The method is proved equal to the specification function `StorySpec`. The lemmas about `StorySpec` state what is in the story:
  - the optional photo group;
  - every labelled field with its "N.D." fallback;
  - the price callout branch;
  - the services list;
  - the fact that the story depends only on thirteen lookups.
- **Page templates and layout** (module `Document`, `document.dfy`). The module covers the two frames, what each template's page routine paints, and which template each page uses. `GenerateLayout` assembles geometry, templates and story as `generate_pdf_bytes` does before `doc.build`.
- **Record normalisation** (module `Request`, `request.dfy`). The `setdefault` loops of the `/generate` handler are methods over a `map<string, string>`, proved against the function `SetDefaults`. The module also holds the default-filling and the derivation of the output file name.

The module `Text` (`text.dfy`) stands in for the Python string built-ins the service uses: `str.lower`, `str.startswith` and `str.replace`. `dict.get` with a default is `Story.Get`.

Two points where the code does less than a reading of its intent suggests; the model follows the code:

- The price test lower-cases the raw fee and does not trim it. A fee of `" N.D."` is therefore shown as a price.
- With a header of positive height, the first page's frame is not always strictly shorter than a continuation page's. When both spans fall below 100 points, the floor makes both frames 100 points tall. `Geometry.FirstStrictlyShorter` states exactly when the inequality is strict.

## Model

| member | source | states |
|---|---|---|
| Geometry.ScaledHeight | app.py:48-50 | 0 when either pixel side is ≤ 0; otherwise height × pixel width = pixel height × target width; positive for a positive image and target; never negative for a non-negative target |
| Geometry.ScaledHeightKeepsAspect | app.py:48-50 | scaling keeps the aspect ratio: height / target = pixel height / pixel width, and scaling to k times the width gives k times the height |
| Geometry.FloorAtMin | app.py:151-152 | `max(span, 100)`: at least 100, the span itself when it is ≥ 100, and 100 otherwise |
| Geometry.FromHeights | app.py:145-152 | the A4 page size, the given footer and header heights, and both usable heights ≥ 100 |
| Geometry.ComputeGeometry | app.py:143-152 | both scaled heights are ≥ 0; each is 0 exactly when its image is degenerate; both frame heights are ≥ 100; the first frame is never taller than the continuation frame |
| Geometry.ReservedBands | app.py:145-150 | bottom reservation = 0.5 cm offset + footer + 10 pt gap; usable width = page width − 2 margins, and it is positive; the two tops differ by the header height |
| Geometry.UsableHeightsExact | app.py:149-152 | each usable height equals its top minus the bottom reservation when that is ≥ 100, and is exactly 100 otherwise |
| Geometry.FirstNotTaller | app.py:149-152 | for a header height ≥ 0, h_first ≤ h_later; with no header they are equal |
| Geometry.FirstStrictlyShorter | app.py:149-152 | h_first < h_later exactly when the header height is > 0 and the continuation span exceeds 100 points |
| Styles.AccentOnlyForPrice | app.py:38-45 | the brand red is the price style's colour and no other style's; the other styles are black; every leading exceeds its font size; exactly the price and italic styles are centred |
| Text.Lower | app.py:119 | same length, each character lowered (ASCII) |
| Text.ReplaceSpaces | app.py:253 | same length; spaces become underscores and every other character is kept |
| Text.ReplaceSpacesClears | app.py:253 | no space is left; replacing again changes nothing; a string without spaces is unchanged |
| Story.BuildStory | app.py:92-138 | the list built by appending, step by step and through the services loop, equals `StorySpec` |
| Story.AppendServices | app.py:124-126 | appending the services section (spacer, title, one "- " line per service in the loop) extends the list by exactly `ServicesSection()` |
| Story.StoryLength | app.py:92-138 | the story has 39 fixed blocks, plus 3 for a photo, plus 3 for a shown price or 1 for a missing one |
| Story.PhotoOnlyWhenPresent | app.py:94-97 | a block is an image exactly when it is block 1 and a photo path is given and exists; the first three blocks are then spacer 28.35, the image capped at 10 cm by 0.30 × the first page's usable height, and spacer 28.35 |
| Story.FieldRendered | app.py:99-117 | the j-th labelled line sits at its fixed position and reads caption + value + unit: the record's value when the key is present, "N.D." when it is missing |
| Story.DataSectionsField | app.py:99-117 | within the three data sections, the j-th labelled field's line is at `FieldPosition(j)` |
| Story.PriceCalloutPolicy | app.py:118-122 | a shown fee means the `canone` key is present and the callout is [spacer 4, "<fee> euro + IVA al mese" in the price style, the italic note]; the callout is "Canone mensile: N.D." exactly when the fee is not shown; a price-style paragraph, and an italic paragraph, exist exactly when the fee is shown |
| Story.CalloutHoldsAccentStyles | app.py:118-122 | every price-style or italic paragraph of the story lies inside the price callout |
| Story.NotAvailableIsHidden | app.py:118-119 | the "N.D." fallback is never shown as a price |
| Story.ShowsPriceExactly | app.py:119 | the fee is shown exactly when it is non-empty and does not begin with N/n, '.', D/d; so the empty string takes the else branch |
| Story.ServicesListed | app.py:124-129 | after the callout: a spacer, "SERVIZI INCLUSI", exactly the eight services in order each prefixed "- ", then the next section's spacer |
| Story.StoryReadsOnlyLookups | app.py:92-138 | two records agreeing on `get(key, "N.D.")` for the thirteen story keys give the same story |
| Story.DataSectionsReadOnlyLookups | app.py:99-117 | the same for the three data sections alone |
| Document.Templates | app.py:157-181 | two templates, "First" then "Later"; each carries its own frame (`frame_first` or `frame_later`) and its own page routine (header and footer for "First", footer only for "Later") |
| Document.FramesClearFooter | app.py:157-163 | both frames start exactly 10 pt above the top of the footer art and span the page between the side margins |
| Document.FrameTops | app.py:149-169 | the first frame's top meets the bottom of the header art exactly when its span is ≥ 100, and otherwise reaches into it; likewise the continuation frame's top and the top margin |
| Document.DrawCounts | app.py:171-176 | over any sequence of pages, the footer is painted once per page and the header once per "First" page |
| Document.HeaderOnlyOnFirstPage | app.py:171-181 | under the intended page rule, page one uses "First" and every later page uses "Later" and its continuation frame of height h_later; the header is painted once and the footer n times |
| Document.HeaderOnEveryPageAsWritten | app.py:156-184 | as written, every page uses "First": the header is painted on all n pages and every frame has the first page's height |
| Document.SecondPageDiffersAsWritten | app.py:178-184 | on a two-page quote with a real header, as written the header is painted twice and page two's frame is shorter by the header height; the intended rule paints it once |
| Document.GenerateLayout | app.py:143-183 | the layout holds the computed geometry, the two templates and the story built with h_first; any image is capped at 0.30 × h_first, which lies between 0.30 × 100 and 0.30 × h_later |
| Request.SetDefault | app.py:228 | `setdefault` adds the key, keeps every existing value, and sets the new key to the given value only when it was missing |
| Request.MergeDefaults | app.py:227-228 | the in-place `setdefault` loop ends with `SetDefaults(data, entries)` |
| Request.SetDefaultsKeys | app.py:227-233 | after the loop the keys are exactly the record's keys plus the entries' keys |
| Request.SetDefaultsKeepsExisting | app.py:227-233 | a key already present keeps its value |
| Request.SetDefaultsFirstWins | app.py:227-228 | a missing key takes the value of its first entry |
| Request.SetDefaultsUniform | app.py:232-233 | when every entry carries v, every added key maps to v |
| Request.SetDefaultsPresent | app.py:227-233 | entries whose keys are all present change nothing |
| Request.SetDefaultsIdempotent | app.py:227-233 | running the loop twice is the same as running it once |
| Request.Normalize | app.py:222-233 | the two loops end with `NormalizedRecord`; caller fields keep their values; all thirteen default keys are present; the key set is exactly caller ∪ parsed ∪ defaults |
| Request.NormalizePrecedence | app.py:222-233 | caller fields are never overridden; a parsed field fills a gap the caller left, and the first parsed entry for a key wins; a default fills only what both left, with "N.D." |
| Request.DefaultsKeepLookups | app.py:231-233 | after the defaults every story key looks up the same text as before |
| Request.DefaultsDoNotChangeStory | app.py:231-233 | filling the defaults does not change the story |
| Request.ModelAlwaysPresent | app.py:231-233 | the defaults always supply `marca_modello`, with "N.D." when it was missing |
| Request.OutputNameShape | app.py:252-254 | a non-empty requested name is used as is; otherwise the name is "Preventivo_Larini_" + the model with spaces turned to underscores (no space left) + "_" + date + ".pdf", with its length |
| Request.OutputNameAfterNormalize | app.py:231-254 | after normalisation the model key is present, so the "Modello" fallback is never used; with no model anywhere the name is "Preventivo_Larini_N.D._<date>.pdf" |

## Left out

- HTTP plumbing is not modelled: FastAPI routing, CORS, the health endpoint, reading uploads, writing temporary files, the missing-assets and PDF-failure errors, and the streaming response (app.py:188-262).
- `json.loads` of `data_json` and its 400 error are not modelled. The record is a `map<string, string>`, so JSON values that are not strings are out of scope.
- `parse_supplier_file` is not modelled: it depends on pdfplumber, python-docx and `re`. Its result is a parameter, a sequence of key/value pairs in dict order.
- `read_image_size`, `calc_footer_height` and `calc_header_height` decode images with ReportLab. Pixel sizes are parameters (`PixelSize`).
- Whether the photo file exists (`Path.exists()`) is a boolean parameter of `BuildStory`.
- The UTC date in the file name comes from the clock. It is a string parameter.
- ReportLab's `doc.build` is not modelled: flowing the story into frames, pagination, `_restrictSize` scaling and the `drawImage` calls. The page count is a parameter. The only parts modelled are which template a page uses and what its page routine paints.
- Floating-point rounding is not modelled; all geometry is exact `real` arithmetic.
- Text.Lower: only ASCII letters are lowered. Python lowers all of Unicode. This is exact for the one use made of it: only 'N', '.' and 'D' lower to 'n', '.' and 'd', so the prefix test is unaffected.
- Spacers keep only their height; ReportLab's spacer width of 1 point is dropped. The image keeps its source and its size caps; its centring (`hAlign`) is dropped.
- Story.BuildStory, Story.FieldRendered: ReportLab's `Paragraph` reads its text as markup, and the model does not interpret it. A record value such as `<x>` makes the constructor raise inside `build_story`, which ends in the handler's 500 error. An entity such as `&amp;` prints differently from the string passed in. `Image` raises on a file that is not an image. None of these exceptions is modelled: `BuildStory` always returns a story, and each block's text is the string handed to `Paragraph`, not the text printed on the page.
- Font and colour details beyond the values listed in `Styles` are not modelled: ReportLab's sample style sheet is not represented.

## Findings

| source | as written | input that shows it | evidently intended | confidence | as-written member | corrected member |
|---|---|---|---|---|---|---|
| app.py:156-184 | The document is a `BaseDocTemplate` and the story has no `NextPageTemplate`. Neither template sets `autoNextPageTemplate`. ReportLab's `BaseDocTemplate` keeps the current template from page to page, so every page uses "First": the header is painted on every page and continuation pages get the shorter first-page frame. | A quote long enough for two pages, with a header image of positive size | "First" on page one only, "Later" (footer only, taller frame) on every page after it, as the two templates and their page routines are set up | medium; not executed, and it rests on ReportLab's paging rule, which is not part of this model | Document.HeaderOnEveryPageAsWritten, Document.SecondPageDiffersAsWritten | Document.HeaderOnlyOnFirstPage |
