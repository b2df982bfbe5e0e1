# Password manager card, modelled in Dafny

This project models `PasswordManagerCard`, a Home Assistant dashboard card.
The card lists configured apps, each bound to an `input_text` entity that holds
the app's password. From a tile the user can copy the password. The user can
also open a modal on an app, where they can generate a new password (it is
copied at once) or save what is typed into the input.

The model has three parts:

- **State machine** (`card.dfy`, module `Card`). The class `PasswordManagerCard` has the card's
  fields: `config`, `hass` (the snapshot `hass.states`, reduced to each entity's
  state string), `modalApp` and `modalPassword`. A fifth field, `effects`, logs what
  the card asks of the host, in order: `SetValue(entity, value)` for the `input_text.set_value`
  service call, `Clipboard(text)` and `Toast("Copied to clipboard!")`. Every method
  keeps `Valid()` (an open modal always has a draft). Each method states the
  whole new state in terms of the old one.
- **Password generator** (`generator.dfy`, module `Generator`). It builds the alphabet
  (52 letters, then the digits if numbers are enabled, then `!@#$%^&*` if symbols are enabled)
  and draws one character per position. Each draw of `Math.random()` is supplied
  as a real in [0, 1) and selects index `floor(r * n)`.
- **View** (`card_view.dfy`, module `CardView`). This is what `render()` shows. There is
  nothing unless both the snapshot and the configuration are set. Otherwise there is one
  tile per app, in order, tagged with its index and name. The modal appears
  exactly when an app is open, showing the app's name and the escaped draft.
  The escape is the card's own: every `"` becomes `&quot;`. `escape.dfy` (module `Escape`)
  holds that escape, a corrected escape, and the browser's decoding of an
  attribute value for `&quot;` and `&amp;`, followed by the sanitization of a text input's value.

`scenarios.dfy` states sequences of pushes and clicks on a fresh card. It proves what
the contracts alone imply about their outcome.

The card behaves as follows, and the model with it:
- A tile carries its index, not its entity.
- Configuration entries are not validated.
- Save closes the modal unconditionally, and write failures are not reported.
- There is no separate "edit draft" action: the input's value is read only when save is clicked.
- A negative `password_length` yields an empty password.
- The draft is not cleared on close or on `setConfig`.

## Model

| member | source | states |
|---|---|---|
| Generator.Alphabet | password-manager-card.js:27-29 | the alphabet starts with the 52 letters and has 52, 60, 62 or 70 characters |
| Generator.AlphabetLayout | password-manager-card.js:27-29 | the alphabet has 52, 60, 62 or 70 characters: letters first, digits next if and only if numbers are enabled, symbols last if and only if symbols are enabled |
| Generator.AlphabetClasses | password-manager-card.js:27-29 | every alphabet character is a letter, a digit (only with numbers) or one of `!@#$%^&*` (only with symbols) |
| Generator.Pick | password-manager-card.js:30 | `Math.floor(Math.random() * chars.length)` is a valid index: it is below the alphabet size, and it is the floor of `r * n` |
| Generator.Draw | password-manager-card.js:30 | `Array.from` yields one character per draw, and character `i` is the alphabet character that draw `i` selects |
| Generator.DrawCount | password-manager-card.js:30 | `Array.from` makes `length` positions for a non-negative length and none for a negative one |
| Generator.GeneratePassword | password-manager-card.js:26-31 | a non-negative length gives exactly that many characters, length 0 or below gives `""`, and every character is from the alphabet |
| Generator.GeneratedClasses | password-manager-card.js:26-30 | a generated password contains digits only when numbers are enabled and symbols only when symbols are enabled; otherwise it is letters only |
| Card.Apps | password-manager-card.js:73 | a missing `apps` list means no apps |
| Card.GetPassword | password-manager-card.js:18-20 | the snapshot's state for the entity, or `""` when the entity is absent |
| Card.PasswordLength | password-manager-card.js:61 | a missing or zero `password_length` means 12; any other value is used as it is; the result is never 0 |
| Card.FlagOrTrue | password-manager-card.js:26 | an option left out takes the parameter default `true`; only an explicit `false` disables |
| Card.GenerateFor | password-manager-card.js:60-64 | the password has as many characters as `password_length`, or 12 when that is missing or zero (none if it is negative); its characters come from the alphabet the app's options select |
| Card.PasswordManagerCard.constructor | password-manager-card.js:1 | a new card has no configuration, snapshot, modal or draft, and has sent nothing |
| Card.PasswordManagerCard.SetConfig | password-manager-card.js:3-7 | replaces the configuration and closes the modal whatever its state; snapshot, draft and effect log are unchanged |
| Card.PasswordManagerCard.SetHass | password-manager-card.js:9-12 | replaces the snapshot; configuration, open app and draft are unchanged |
| Card.PasswordManagerCard.Copy | password-manager-card.js:33-38 | appends a clipboard write of the text, then the "Copied to clipboard!" toast |
| Card.PasswordManagerCard.SetPassword | password-manager-card.js:22-24 | appends exactly one `input_text.set_value` call for the entity and value |
| Card.PasswordManagerCard.OpenModal | password-manager-card.js:40-44 | the modal opens on the app with the app's current value as draft; nothing is written, and configuration and snapshot are unchanged |
| Card.PasswordManagerCard.CloseModal | password-manager-card.js:46-49 | the modal is closed; nothing is written and nothing else changes (also the cancel button, line 194-196, and the backdrop, line 181) |
| Card.PasswordManagerCard.SaveModalPassword | password-manager-card.js:51-56 | with a modal open: exactly one write of the draft to the open app's entity, then closed; without one: nothing changes and nothing is sent |
| Card.PasswordManagerCard.GenerateInModal | password-manager-card.js:58-68 | with a modal open: the draft becomes the generated password for the open app, which stays open, then a clipboard write of it and the toast; without one: no change |
| Card.PasswordManagerCard.CopyClick | password-manager-card.js:169-172 | copies the app's current value (or `""`) and shows the toast; no state changes |
| Card.PasswordManagerCard.SaveClick | password-manager-card.js:188-192 | the input's value becomes the draft; then, if a modal is open, exactly that value is written to its entity; the modal ends closed |
| CardView.Tiles | password-manager-card.js:138-144 | one tile per app, in order, tile `i` carrying index `i` and app `i`'s name |
| CardView.Render | password-manager-card.js:70-75 | no view unless both snapshot and configuration are set; otherwise the tiles of the configured apps; a modal exactly when an app is open, with its name and the draft (`""` when there is none) with every `"` replaced by `&quot;`; that value has no `"`, and the parser's reference decoding gives back the draft whenever the draft has no `&` |
| CardView.RenderCorrected | password-manager-card.js:152 | the view with the corrected escape: the same tiles and modal presence, and a modal value without `"` whose reference decoding gives back every draft exactly |
| CardView.RenderAgreesWithoutAmpersand | password-manager-card.js:152 | the card's view and the corrected view coincide whenever the draft has no `&` |
| CardView.OpenThenSaveUnchanged | password-manager-card.js:174-192 | editing a tile and saving the input untouched writes the text the input shows for the card's escape of the stored value: the sanitized stored value when it has no `&`, and the stored value itself when it also has no line break or NUL; the modal ends closed |
| CardView.OpenThenSaveUnchangedCorrected | password-manager-card.js:174-192 | with the corrected view, saving the input untouched writes the stored value as the browser sanitizes it, so every value without a line break or NUL exactly |
| Escape.DecodeAttribute | password-manager-card.js:152 | models the browser's HTML parser, not the card: `&quot;` and `&amp;` in a quoted attribute value are decoded, and text without `&` passes through this step unchanged |
| Escape.Sanitize | password-manager-card.js:152 | models the browser, not the card: a text input's value loses its line feeds and carriage returns and has each NUL replaced by U+FFFD; the result never holds those characters, and a value is left as it is exactly when it holds none |
| Escape.InputText | password-manager-card.js:152 | models the browser, not the card: the text an input shows, and a save reads, for a `value` attribute; it holds no line break or NUL, and equals the attribute when that has no `&`, line break or NUL |
| Escape.CorrectedInputText | password-manager-card.js:152 | with the corrected escape the input shows every draft as the browser sanitizes it, so every draft without a line break or NUL exactly |
| Escape.QuoteEscapeInputText | password-manager-card.js:152 | with the card's escape the input shows every draft without `&` as the browser sanitizes it, so exactly when it also has no line break or NUL |
| Escape.EscapeQuotes | password-manager-card.js:152 | the card's escape: its result contains no `"` |
| Escape.EscapeQuotesKeepsQuoteFree | password-manager-card.js:152 | the card's escape leaves a value without `"` as it is |
| Escape.QuoteEscapeRoundTripWithoutAmpersand | password-manager-card.js:152 | the parser's reference decoding of the card's escape gives back every draft without `&` (what the input then shows is `Escape.InputText`, which also sanitizes) |
| Escape.QuoteEscapeLosesAmpersandReference | password-manager-card.js:152 | a draft `&amp;` is shown, and read back on save, as `&` |
| Escape.EscapeAttribute | password-manager-card.js:152 | the corrected escape (escapes `&` and `"`): its result contains no `"` |
| Escape.AttributeRoundTrip | password-manager-card.js:152 | the parser's reference decoding of the corrected escape gives back every draft exactly |
| Escape.EscapesAgreeWithoutAmpersand | password-manager-card.js:152 | the corrected escape and the card's escape agree on every draft without `&` |
| Scenarios.EditAndSave | password-manager-card.js:188-192 | Email over `{e1: "old"}`: opens with draft "old"; saving "new" sends exactly `SetValue("e1", "new")` and closes |
| Scenarios.OpenThenCancel | password-manager-card.js:194-196 | open then cancel sends nothing, closes, and leaves configuration and snapshot unchanged |
| Scenarios.ReconfigureWhileOpen | password-manager-card.js:3-7 | a new configuration while the modal is open yields a view with the new tiles and no modal |
| Scenarios.MissingEntity | password-manager-card.js:18-20 | an entity missing from the snapshot opens with an empty draft, and copy puts `""` on the clipboard |
| Scenarios.SaveUntouchedAmpersandReference | password-manager-card.js:188-192 | a stored `&amp;`, opened and saved untouched, is written back as `&` |
| Scenarios.SaveUntouchedLineBreak | password-manager-card.js:188-192 | a stored `a\nb`, opened and saved untouched, is written back as `ab` |
| Scenarios.GenerateLettersOnly | password-manager-card.js:58-68 | with numbers and symbols disabled and no length: twelve letters, copied and announced, with the modal still open |

## Left out

- Markup, styles and event wiring: `document.createElement`, `innerHTML`, `querySelectorAll` and `addEventListener` (lines 77-197) are not modelled. The view is abstract, and each button is the method its handler calls. Clicks inside the modal content do not propagate (line 182); the model reflects this only because no method is bound to those clicks.
- `navigator.clipboard.writeText`, the `hass-show-toast` event and `hass.callService` are asynchronous calls to the host. They appear only as entries in the effect log. Their completion and failure are not modelled.
- `Math.random` is replaced by supplied draws, modelled as exact reals in [0, 1). Floating-point rounding of `r * n` is not modelled.
- `customElements.define` and `getCardSize` (a constant 2) are registration and layout plumbing.
- `render()` has no state of its own. The model treats it as a function of the four fields rather than as a step after each transition. When it returns early, the page keeps the old markup and its old listeners. Clicks on that stale markup are not modelled.
- JavaScript values outside the modelled types are left out: a non-integer or non-numeric `password_length`; `use_numbers`/`use_symbols` given as `null` or another non-boolean; an app entry without `name` or `entity` (the card then shows `undefined` as the name, looks up `states["undefined"]` and sends `set_value` with `entity_id: undefined`); an entity present in `hass.states` whose `state` is `null`; `hass` set to `null`.
- Card.PasswordManagerCard.OpenModal and Card.PasswordManagerCard.CopyClick require a snapshot. The code reads `this._hass.states` and would throw without one. Their listeners exist only after a render with a snapshot.
- App names are written into the markup without any escaping. The model shows them as plain strings.
- Escape.DecodeAttribute decodes only `&quot;` and `&amp;`, the two references the escapes produce. HTML's other named and numeric references are not modelled. Neither are the legacy forms without a semicolon (`&quot`, `&amp`, `&lt` and others), which HTML decodes when no letter, digit or `=` follows. A generated password such as `&lt!` is therefore also shown altered, which the model cannot exhibit. The parser's other changes to the text (line breaks, NUL) are modelled separately by `Escape.Sanitize`, and only for the characters named there.
- Card.PasswordManagerCard.GenerateInModal and Generator.GeneratePassword: when `password_length || 12` is 2^32 or more, `Array.from` throws a RangeError. `generateInModal` then stops before it changes the draft or copies anything. The model instead produces a password of that length.
- Card.PasswordManagerCard.SaveClick: the text typed into the modal's input is not state in the model; it is the method's argument. Every `render()` rebuilds the input from `_modalPassword`, and `render()` runs after every `hass` push (lines 9-12) and after generate (line 66). Text typed but not yet saved is therefore lost whenever the host pushes a snapshot; the model does not capture that loss.

## Findings

| source | as written | input that shows it | evidently intended | confidence | as-written member | corrected member |
|---|---|---|---|---|---|---|
| password-manager-card.js:152 | the draft goes into `value="..."` with only `"` escaped, so `&` starts a character reference | a stored password `&amp;` appears in the input as `&`; pressing Save without edits (lines 188-192) writes `&` back, changing the password (Scenarios.SaveUntouchedAmpersandReference) | the input shows the draft verbatim, which also needs `&` escaped as `&amp;` | not executed; high | Escape.QuoteEscapeLosesAmpersandReference | CardView.RenderCorrected |

`CardView.Render` models the card as written. `CardView.RenderCorrected` uses the escape that also escapes `&`, and `CardView.RenderAgreesWithoutAmpersand` shows that the two views coincide on every draft without `&`.
