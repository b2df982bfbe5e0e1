/**
 * Sequences of host pushes and user actions on a fresh card, and what the
 * card's contracts alone say about their outcome.
 */
module Scenarios {
  import opened Wrappers
  import opened Card
  import CardView
  import Generator
  import Escape

  /** Open the `Email` app over `{e1: "old"}`, type "new", save: one write of "new", modal closed. */
  method EditAndSave() returns (draftOnOpen: string, log: seq<Effect>, open: bool)
    ensures draftOnOpen == "old"
    ensures log == [SetValue("e1", "new")] && !open
  {
    var card := new PasswordManagerCard();
    var email := AppEntry("Email", "e1", None, None, None);
    card.SetConfig(Config(Some([email])));
    card.SetHass(map["e1" := "old"]);
    card.OpenModal(email);
    draftOnOpen := card.modalPassword.value;
    card.SaveClick("new");
    log, open := card.effects, card.modalApp.Some?;
  }

  /** Open, then cancel: nothing is written and configuration and snapshot are as they were. */
  method OpenThenCancel(config: Config, states: States, index: nat) returns (log: seq<Effect>, open: bool, same: bool)
    requires index < |Apps(config)|
    ensures log == [] && !open && same
  {
    var card := new PasswordManagerCard();
    card.SetConfig(config);
    card.SetHass(states);
    card.OpenModal(Apps(config)[index]);
    card.CloseModal();
    log, open := card.effects, card.modalApp.Some?;
    same := card.config == Some(config) && card.hass == Some(states);
  }

  /** A new configuration closes an open modal whatever it held. */
  method ReconfigureWhileOpen(first: Config, second: Config, states: States, app: AppEntry)
    returns (view: Option<CardView.View>)
    ensures view.Some? && view.value.modal.None?
    ensures view.value.tiles == CardView.Tiles(Apps(second))
  {
    var card := new PasswordManagerCard();
    card.SetConfig(first);
    card.SetHass(states);
    card.OpenModal(app);
    card.SaveClick("typed");
    card.OpenModal(app);
    card.SetConfig(second);
    view := CardView.Render(card.config, card.hass, card.modalApp, card.modalPassword);
  }

  /** An entity the snapshot lacks: the modal opens on an empty draft and copy puts "" on the clipboard. */
  method MissingEntity(app: AppEntry) returns (draft: string, log: seq<Effect>)
    ensures draft == ""
    ensures log == [Clipboard(""), Toast(CopiedMessage)]
  {
    var card := new PasswordManagerCard();
    card.SetConfig(Config(Some([app])));
    card.SetHass(map[]);
    card.OpenModal(app);
    draft := card.modalPassword.value;
    card.CopyClick(app);
    log := card.effects;
  }

  /**
   * Generate for an app without numbers, symbols or length: twelve letters,
   * copied and announced, with the modal still on the app.
   */
  method GenerateLettersOnly(randoms: seq<real>) returns (pw: string, log: seq<Effect>, stillOpen: bool)
    requires |randoms| == 12 && Generator.IsDraws(randoms)
    ensures |pw| == 12
    ensures forall i :: 0 <= i < |pw| ==> Generator.IsLetter(pw[i])
    ensures log == [Clipboard(pw), Toast(CopiedMessage)] && stillOpen
  {
    var app := AppEntry("Mail", "input_text.mail", None, Some(false), Some(false));
    var card := new PasswordManagerCard();
    card.SetConfig(Config(Some([app])));
    card.SetHass(map[]);
    card.OpenModal(app);
    card.GenerateInModal(randoms);
    pw, log, stillOpen := card.modalPassword.value, card.effects, card.modalApp == Some(app);
    Generator.GeneratedClasses(12, false, false, randoms);
  }

  /** A stored `&amp;`: opening the modal and saving it untouched writes `&`. */
  method SaveUntouchedAmpersandReference() returns (log: seq<Effect>)
    ensures log == [SetValue("e1", "&")]
  {
    var card := new PasswordManagerCard();
    var app := AppEntry("Email", "e1", None, None, None);
    card.SetConfig(Config(Some([app])));
    card.SetHass(map["e1" := "&amp;"]);
    Escape.QuoteEscapeLosesAmpersandReference();
    CardView.OpenThenSaveUnchanged(card, 0);
    log := card.effects;
  }

  /** A stored `a\nb`: opening the modal and saving it untouched writes `ab`, the line break dropped by the input. */
  method SaveUntouchedLineBreak() returns (log: seq<Effect>)
    ensures log == [SetValue("e1", "ab")]
  {
    var card := new PasswordManagerCard();
    var app := AppEntry("Email", "e1", None, None, None);
    card.SetConfig(Config(Some([app])));
    card.SetHass(map["e1" := "a\nb"]);
    CardView.OpenThenSaveUnchanged(card, 0);
    assert Escape.Sanitize("a\nb") == "ab" by {
      assert "a\nb"[1..] == "\nb" && "\nb"[1..] == "b" && "b"[1..] == "";
    }
    log := card.effects;
  }
}
