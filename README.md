# postimovel listing-card editor, modelled in Dafny

The application is a single-page form for real-estate marketers. A user fills
in a listing draft: title, price, location, area, bedrooms, bathrooms, parking
spaces, three photos, a logo, three colours and whether the listing is a sale
or a rental. A card preview updates live from the draft, and the card can be
exported as a PNG file. This project models the logic behind that form:

- `draft.dfy`, module `Draft`: the draft record (`PropertyData`) and its
  defaults. It also holds the ten input names bound to form inputs (`Field`),
  the four image slots (`ImageSlot`) and the pure record updates the handlers
  apply. Those updates are `{ ...prev, [name]: value }` for an input,
  `{ ...prev, [type]: result }` for a file and `{ ...prev, propertyType }` for
  the two business-type buttons.
- `preview.dfy`, module `Preview`: the card as a pure function of the draft.
  Each text uses JavaScript's `field || placeholder`. Photo frames and the logo
  follow JavaScript truthiness. The badge is chosen by the business type.
- `filename.dfy`, module `Filename`: the export file name `postimoveis-` +
  title lower-cased with each whitespace run replaced by `-` + `.png`.
  `IsSpace` is the exact `\s` class of JavaScript regular expressions.
- `editor.dfy`, module `Editor`: the component state as a class `App` with the
  fields `data` and `isExporting`. There is one method per event handler. The
  export handler is split at its `await` into `StartExport` and
  `FinishExport`, because other events (edits, further clicks) can arrive
  while rasterisation runs. `DownloadImage` composes the two halves for the
  case where nothing arrives in between.

Inputs the code receives from the browser are parameters:
- whether the card element is mounted (`cardMounted`);
- what a file input delivers: no file chosen, or a chosen file together with the
  reader's result (a data URL, or null when the read failed or was aborted);
- the outcome of the rasteriser: a data URL, or `None` when it throws.

The handler methods change state and are specified against the pure update
functions of `Draft`. What those functions promise (frame conditions,
idempotence, commutation, last-write-wins) is proved as lemmas in `Draft`.

## Model

| member | source | states |
|---|---|---|
| `Draft.Extensionality` | src/App.tsx:22-38 | The ten inputs, the four image slots and the business type are the whole draft: drafts that agree on all of them are equal, so the frame conditions below pin each update down completely |
| `Draft.DefaultData` | src/App.tsx:40-56 | Every text input is empty and every image slot is null. The colours are `#ffffff` (background), `#d4af37` (accent) and `#1a1a1a` (text). The type is a sale |
| `Draft.SetField` | src/App.tsx:79-82 | An input change sets the named input to the new value. Every other input, every image slot and the business type are unchanged |
| `Draft.SetSlot` | src/App.tsx:88-90 | A finished file read sets the chosen slot to the reader's result: the payload, or null after a failed read. The other slots, all inputs and the business type are unchanged |
| `Draft.Upload` | src/App.tsx:84-93 | With no file chosen the draft is unchanged. With a file, only the chosen slot changes. It holds the reader's result: the payload, or null (clearing any earlier image) when the read failed or was aborted |
| `Draft.SetType` | src/App.tsx:131-149 | A business-type button sets the type and leaves every input and image slot unchanged |
| `Draft.SetTypeIdempotent` | src/App.tsx:131-149 | Pressing a type button twice equals pressing it once. Pressing the button of the current type changes nothing |
| `Draft.SetTypeLastWins` | src/App.tsx:131-149 | After two type-button presses the type is that of the last press, and nothing else differs |
| `Draft.SetFieldLastWins` | src/App.tsx:79-82 | Two edits of the same input leave the later value |
| `Draft.SetFieldCommutes` | src/App.tsx:79-82 | Edits of two different inputs give the same draft in either order |
| `Draft.SetFieldSameValue` | src/App.tsx:79-82 | Setting an input to the value it already holds leaves the draft unchanged |
| `Draft.UploadCommutes` | src/App.tsx:84-93 | Uploads to two different slots give the same draft whichever file read finishes first |
| `Preview.Badge` | src/App.tsx:334 | The badge reads "Venda Exclusiva" exactly when the type is a sale, and "Oportunidade de Locação" exactly when it is a rental |
| `Preview.OrElse` | src/App.tsx:349-382 | JavaScript's logical or of a string and its fallback: the result is the value or the fallback, a non-empty value is kept, and the result is empty only when both are |
| `Preview.ShowSlot` | src/App.tsx:298-326 | An image appears exactly when its slot is truthy (not null, not empty), and it is the slot's own payload. Otherwise a photo frame shows the house icon and the logo shows nothing (`data.logo &&` at line 386) |
| `Preview.Render` | src/App.tsx:294-389 | Every text on the card is non-empty, so the card is always renderable. The badge follows the type in both directions. The logo appears exactly when the logo slot is truthy. A photo frame is never blank |
| `Preview.Display` | src/App.tsx:345-383 | How one input is shown, the one definition the card uses for every text and colour: a text input is never shown empty, a non-empty value other than the area is shown as it is, and a colour is passed through unchanged |
| `Preview.RenderPointwise` | src/App.tsx:345-383 | Each part of the card depends on its own input only. A non-empty value is shown as is (the area with `m²` after it). Each photo frame, and the logo, shows its own slot |
| `Preview.RenderAfterEdit` | src/App.tsx:345-383 | After an input edit, only the part of the card that shows that input changes. It shows the new value or its placeholder |
| `Preview.RenderAfterUpload` | src/App.tsx:294-388 | After an upload, only the frame of that slot changes: every text, colour, other frame and the badge stay. The frame shows the new image for a non-empty payload. After a failed read it shows the house icon for a photo and nothing for the logo |
| `Preview.RenderDefault` | src/App.tsx:340-389 | A fresh draft renders every placeholder: "Incrível Mansão Moderna", "Localização Premium", "Sob Consulta", "0m²" and "0". Every frame shows the house icon, there is no logo, and the badge reads as a sale |
| `Filename.IsSpace` | src/App.tsx:101 | The `\s` class of JavaScript regular expressions, code point for code point. No whitespace character is a letter or the `-` that replaces a run |
| `Filename.SpaceIsOneCodeUnit` | src/App.tsx:101 | Every whitespace character is a single UTF-16 code unit, so code points and code units give the same whitespace runs |
| `Filename.Lower` | src/App.tsx:101 | `toLowerCase()` keeps the length, leaves no upper-case ASCII letter, and keeps whitespace exactly where it was |
| `Filename.LowerChar` | src/App.tsx:101 | Lower-casing leaves no upper-case ASCII letter, never creates or removes whitespace, and shifts only `A`-`Z` |
| `Filename.CollapseSpaces` | src/App.tsx:101 | The result of `replace(/\s+/g, '-')` contains no whitespace and is no longer than its input |
| `Filename.Slug` | src/App.tsx:101 | The middle of the file name contains no whitespace and no upper-case ASCII letter |
| `Filename.ExportFilename` | src/App.tsx:101 | The name is `postimoveis-`, then the slug of the title, then `.png`. Nothing between prefix and suffix is whitespace or upper case |
| `Filename.CollapseSpaceFree` | src/App.tsx:101 | Text without whitespace is left unchanged |
| `Filename.CollapseRun` | src/App.tsx:101 | A whitespace run of any length becomes exactly one `-` |
| `Filename.CollapseConcat` | src/App.tsx:101 | Collapsing distributes over concatenation when the cut does not split a whitespace run. With the two lemmas above it fixes the result for every title |
| `Filename.CollapseIdempotent` | src/App.tsx:101 | Collapsing an already collapsed string changes nothing: the rule leaves no whitespace run for a second pass to act on |
| `Filename.CollapseLower` | src/App.tsx:101 | Lower-casing and collapsing commute |
| `Filename.CollapseWordThenRun` | src/App.tsx:101 | A word followed by a whitespace run and more text becomes the word, one `-`, and the collapsed rest |
| `Filename.SlugOfTwoWords` | src/App.tsx:101 | Two words separated by any whitespace run become the two lower-cased words joined by one `-` |
| `Filename.SlugExample` | src/App.tsx:101 | "Casa \t Azul" becomes "casa-azul" |
| `Filename.ExportFilenameEmptyTitle` | src/App.tsx:101 | An empty title gives `postimoveis-.png` |
| `Filename.ExportFilenameExample` | src/App.tsx:101 | "Casa \t Azul" gives `postimoveis-casa-azul.png` |
| `Editor.App.constructor` | src/App.tsx:75-77 | A session starts from the default draft and is not exporting |
| `Editor.App.HandleInputChange` | src/App.tsx:79-82 | The draft becomes `SetField` of the old draft. The busy flag is unchanged |
| `Editor.App.HandleImageUpload` | src/App.tsx:84-93 | The draft becomes `Upload` of the old draft: unchanged when no file was chosen, the chosen slot set to the reader's result otherwise. The busy flag is unchanged |
| `Editor.App.SelectVenda` | src/App.tsx:133 | The draft becomes `SetType(old, Venda)`. The busy flag is unchanged |
| `Editor.App.SelectLocacao` | src/App.tsx:142 | The draft becomes `SetType(old, Locacao)`. The busy flag is unchanged |
| `Editor.App.StartExport` | src/App.tsx:95-97 | Without a card element nothing changes and no export starts. Otherwise the busy flag is raised and the export carries the current title. The draft is never changed |
| `Editor.App.FinishExport` | src/App.tsx:98-108 | Whether rasterisation succeeded or threw, the busy flag ends false and the draft is unchanged. On success the download is named from the captured title and links to the data URL. On failure nothing is downloaded |
| `Editor.App.DownloadImage` | src/App.tsx:95-109 | Without a card element nothing changes. Otherwise the busy flag is true while the rasteriser runs and false afterwards. The draft is unchanged, and the download is offered only on success |
| `Editor.App.ExportEnabled` | src/App.tsx:266 | The export button is enabled exactly when no export is running |
| `Editor.App.PressExportButton` | src/App.tsx:264-266 | While busy, the disabled button starts nothing and leaves the state alone. When idle, the button behaves as `StartExport` |

## Left out

- Layout, styling, icons, decorative elements and the class-name helper `cn`: presentation only.
- The asynchronous `FileReader`: when its read ends, its result (a data URL, or null after a failure or abort) is the `Chosen` value passed to `HandleImageUpload`. The reading itself is not modelled.
- The `html-to-image` rasteriser and the DOM anchor and click: the outcome of rasterisation is the `raster` parameter. Nothing is actually written to disk.
- React's re-rendering, hooks and `useRef`: a mounted card element is the `cardMounted` parameter.
- `console.error` on export failure: logging only.
- The upper-case display of colour values next to the colour pickers: a library call on display text.
- `Filename.LowerChar`: lowers ASCII letters only. JavaScript's `toLowerCase` also lowers other Unicode letters, and for a few of them it changes the string's length. The Unicode case-mapping tables are not part of this model.
- `Filename.Lower`: lowers ASCII letters only, like `Filename.LowerChar`; other Unicode letters keep their case.
- Strings are sequences of Unicode scalar values, not UTF-16 code units. Every JavaScript whitespace character is a single code unit, so the whitespace rule is the same in both.
- A title the browser cannot use verbatim as a file name (for instance one containing `/`) is passed through as the source passes it; the browser's own file-name sanitising is not modelled.
- Whether an export with no photos or logo succeeds depends on the rasteriser, which is not modelled.
- The input handler accepts any input name. The model restricts names to the ten inputs the form binds.
