/**
 * What `render()` shows, as an abstract view: one tile per configured app
 * and, while an app's modal is open, the modal with its escaped draft.
 * Styles, markup and event wiring are not part of it.
 */
module CardView {
  import opened Wrappers
  import opened Card
  import Escape

  /** A tile: its `data-idx` and the app's name. */
  datatype Tile = Tile(index: nat, name: string)

  /** The modal: the app's name and the text of the input's `value` attribute. */
  datatype Modal = Modal(title: string, value: string)

  datatype View = View(tiles: seq<Tile>, modal: Option<Modal>)

  /** `apps.map((app, index) => ...)`. */
  function Tiles(apps: seq<AppEntry>): (tiles: seq<Tile>)
    ensures |tiles| == |apps|
    ensures forall i :: 0 <= i < |tiles| ==> tiles[i].index == i && tiles[i].name == apps[i].name
  {
    seq(|apps|, i requires 0 <= i < |apps| => Tile(i, apps[i].name))
  }

  /**
   * `render()`: `None` when it returns early because the snapshot or the
   * configuration is missing (the page keeps whatever it showed before).
   * The modal's value is the draft with every `"` replaced by `&quot;`.
   */
  function Render(config: Option<Config>, hass: Option<States>, modalApp: Option<AppEntry>,
                  modalPassword: Option<string>): (v: Option<View>)
    ensures v.None? <==> config.None? || hass.None?
    ensures v.Some? ==> v.value.tiles == Tiles(Apps(config.value))
    ensures v.Some? ==> (v.value.modal.Some? <==> modalApp.Some?)
    ensures v.Some? && modalApp.Some? ==>
      var m := v.value.modal.value;
      var draft := modalPassword.GetOr("");
      && m.title == modalApp.value.name
      && m.value == Escape.EscapeQuotes(draft)
      && '"' !in m.value
      && ('&' !in draft ==> Escape.DecodeAttribute(m.value) == draft)
  {
    if config.None? || hass.None? then None
    else
      var draft := modalPassword.GetOr("");
      assert '&' !in draft ==> Escape.DecodeAttribute(Escape.EscapeQuotes(draft)) == draft by {
        if '&' !in draft {
          Escape.QuoteEscapeRoundTripWithoutAmpersand(draft);
        }
      }
      var modal := if modalApp.Some? then Some(Modal(modalApp.value.name, Escape.EscapeQuotes(draft))) else None;
      Some(View(Tiles(Apps(config.value)), modal))
  }

  /** The view with the corrected escape: the input shows every draft exactly. */
  function RenderCorrected(config: Option<Config>, hass: Option<States>, modalApp: Option<AppEntry>,
                           modalPassword: Option<string>): (v: Option<View>)
    ensures v.None? <==> config.None? || hass.None?
    ensures v.Some? ==> v.value.tiles == Tiles(Apps(config.value))
    ensures v.Some? ==> (v.value.modal.Some? <==> modalApp.Some?)
    ensures v.Some? && modalApp.Some? ==>
      var m := v.value.modal.value;
      && m.title == modalApp.value.name
      && '"' !in m.value
      && Escape.DecodeAttribute(m.value) == modalPassword.GetOr("")
  {
    match Render(config, hass, modalApp, modalPassword)
    case None => None
    case Some(view) =>
      var draft := modalPassword.GetOr("");
      Escape.AttributeRoundTrip(draft);
      var modal := if view.modal.Some? then Some(view.modal.value.(value := Escape.EscapeAttribute(draft))) else None;
      Some(view.(modal := modal))
  }

  /** The card's view and the corrected one are the same whenever the draft has no `&`. */
  lemma {:induction false} RenderAgreesWithoutAmpersand(config: Option<Config>, hass: Option<States>,
                                                       modalApp: Option<AppEntry>, modalPassword: Option<string>)
    requires '&' !in modalPassword.GetOr("")
    ensures Render(config, hass, modalApp, modalPassword) == RenderCorrected(config, hass, modalApp, modalPassword)
  {
    Escape.EscapesAgreeWithoutAmpersand(modalPassword.GetOr(""));
  }

  /**
   * Editing a tile and saving the input untouched: the value written is the
   * text the input shows for the card's escape of the stored value, which is
   * the stored value itself whenever it has no `&`, line break or NUL.
   */
  method OpenThenSaveUnchanged(card: PasswordManagerCard, index: nat)
    requires card.Valid() && card.hass.Some? && card.config.Some?
    requires index < |Apps(card.config.value)|
    modifies card
    ensures card.Valid() && card.modalApp == None
    ensures card.config == old(card.config) && card.hass == old(card.hass)
    ensures var app := Apps(card.config.value)[index];
      var stored := GetPassword(card.hass.value, app.entity);
      && card.effects == old(card.effects) + [SetValue(app.entity, Escape.InputText(Escape.EscapeQuotes(stored)))]
      && ('&' !in stored ==> card.effects == old(card.effects) + [SetValue(app.entity, Escape.Sanitize(stored))])
      && ('&' !in stored && Escape.IsPlain(stored) ==> card.effects == old(card.effects) + [SetValue(app.entity, stored)])
  {
    var app := Apps(card.config.value)[index];
    card.OpenModal(app);
    var view := Render(card.config, card.hass, card.modalApp, card.modalPassword);
    var input := Escape.InputText(view.value.modal.value.value);
    var stored := card.modalPassword.value;
    if '&' !in stored {
      Escape.QuoteEscapeInputText(stored);
    }
    card.SaveClick(input);
  }

  /**
   * With the corrected view, saving the input untouched writes back the
   * stored value as the browser sanitizes it: every value without a line
   * break or NUL exactly.
   */
  method OpenThenSaveUnchangedCorrected(card: PasswordManagerCard, index: nat)
    requires card.Valid() && card.hass.Some? && card.config.Some?
    requires index < |Apps(card.config.value)|
    modifies card
    ensures card.Valid() && card.modalApp == None
    ensures card.config == old(card.config) && card.hass == old(card.hass)
    ensures var app := Apps(card.config.value)[index];
      var stored := GetPassword(card.hass.value, app.entity);
      && card.effects == old(card.effects) + [SetValue(app.entity, Escape.Sanitize(stored))]
      && (Escape.IsPlain(stored) ==> card.effects == old(card.effects) + [SetValue(app.entity, stored)])
  {
    var app := Apps(card.config.value)[index];
    card.OpenModal(app);
    var view := RenderCorrected(card.config, card.hass, card.modalApp, card.modalPassword);
    Escape.CorrectedInputText(card.modalPassword.value);
    var input := Escape.InputText(view.value.modal.value.value);
    card.SaveClick(input);
  }
}
