/**
 * The dashboard card `PasswordManagerCard`: its configuration, the host's
 * state snapshot, the modal's open app and draft, and the effects its
 * actions send to the host (service calls, clipboard writes, toasts),
 * which are recorded in order in an effect log.
 */
module Card {
  import opened Wrappers
  import Generator

  /** The host's `hass.states`, reduced to each entity's state string. */
  type States = map<string, string>

  /** One configured app; `None` stands for an option left out of the configuration. */
  datatype AppEntry = AppEntry(
    name: string,
    entity: string,
    passwordLength: Option<int>,
    useNumbers: Option<bool>,
    useSymbols: Option<bool>)

  datatype Config = Config(apps: Option<seq<AppEntry>>)

  /** What the card asks of the host. */
  datatype Effect =
    | SetValue(entity: string, value: string)   // service `input_text.set_value`
    | Clipboard(text: string)                   // `navigator.clipboard.writeText`
    | Toast(message: string)                    // the `hass-show-toast` event

  const CopiedMessage: string := "Copied to clipboard!"
  const DefaultLength: int := 12

  /** `config.apps || []`. */
  function Apps(config: Config): (apps: seq<AppEntry>)
    ensures config.apps.Some? ==> apps == config.apps.value
    ensures config.apps.None? ==> apps == []
  {
    config.apps.GetOr([])
  }

  /** `_getPassword`: the entity's state, or the empty string when the snapshot has none. */
  function GetPassword(states: States, entity: string): (pw: string)
    ensures entity in states ==> pw == states[entity]
    ensures entity !in states ==> pw == ""
  {
    if entity in states then states[entity] else ""
  }

  /** `app.password_length || 12`: a missing or zero length means 12. */
  function PasswordLength(app: AppEntry): (n: int)
    ensures n != 0
    ensures app.passwordLength in {None, Some(0)} ==> n == DefaultLength
    ensures app.passwordLength !in {None, Some(0)} ==> n == app.passwordLength.value
  {
    match app.passwordLength
    case None => DefaultLength
    case Some(n) => if n == 0 then DefaultLength else n
  }

  /** A boolean option passed to a parameter whose default is `true`. */
  function FlagOrTrue(flag: Option<bool>): (b: bool)
    ensures b <==> flag != Some(false)
  {
    flag.GetOr(true)
  }

  /** The password the generate button makes for `app` from the given draws. */
  function GenerateFor(app: AppEntry, randoms: seq<real>): (pw: string)
    requires |randoms| == Generator.DrawCount(PasswordLength(app)) && Generator.IsDraws(randoms)
    ensures |pw| == Generator.DrawCount(PasswordLength(app))
    ensures app.passwordLength in {None, Some(0)} ==> |pw| == DefaultLength
    ensures forall i :: 0 <= i < |pw| ==>
      pw[i] in Generator.Alphabet(app.useNumbers != Some(false), app.useSymbols != Some(false))
  {
    Generator.GeneratePassword(PasswordLength(app), FlagOrTrue(app.useNumbers), FlagOrTrue(app.useSymbols), randoms)
  }

  class PasswordManagerCard {
    var config: Option<Config>
    var hass: Option<States>
    var modalApp: Option<AppEntry>
    var modalPassword: Option<string>
    /** The effects sent to the host so far, oldest first. */
    var effects: seq<Effect>

    /** An open modal always has a draft. */
    ghost predicate Valid()
      reads this
    {
      modalApp.Some? ==> modalPassword.Some?
    }

    constructor ()
      ensures Valid()
      ensures config == None && hass == None && modalApp == None && modalPassword == None
      ensures effects == []
    {
      config, hass, modalApp, modalPassword := None, None, None, None;
      effects := [];
    }

    /** `setConfig`: replaces the configuration and closes any open modal. */
    method SetConfig(c: Config)
      requires Valid()
      modifies this
      ensures Valid()
      ensures config == Some(c) && modalApp == None
      ensures hass == old(hass) && modalPassword == old(modalPassword) && effects == old(effects)
    {
      config := Some(c);
      modalApp := None;
    }

    /** The `hass` setter: replaces the snapshot; an open modal keeps its draft. */
    method SetHass(states: States)
      requires Valid()
      modifies this
      ensures Valid()
      ensures hass == Some(states)
      ensures config == old(config) && modalApp == old(modalApp) && modalPassword == old(modalPassword)
      ensures effects == old(effects)
    {
      hass := Some(states);
    }

    /** `_copy`: writes `text` to the clipboard, then shows the toast. */
    method Copy(text: string)
      modifies this`effects
      ensures effects == old(effects) + [Clipboard(text), Toast(CopiedMessage)]
    {
      effects := effects + [Clipboard(text), Toast(CopiedMessage)];
    }

    /** `_setPassword`: asks the host to store `value` for `entity`. */
    method SetPassword(entity: string, value: string)
      modifies this`effects
      ensures effects == old(effects) + [SetValue(entity, value)]
    {
      effects := effects + [SetValue(entity, value)];
    }

    /** `openModal`: opens the modal on `app` with the app's current value as draft. */
    method OpenModal(app: AppEntry)
      requires Valid() && hass.Some?
      modifies this
      ensures Valid()
      ensures config == old(config) && hass == old(hass) && effects == old(effects)
      ensures modalApp == Some(app) && modalPassword == Some(GetPassword(hass.value, app.entity))
    {
      modalApp := Some(app);
      modalPassword := Some(GetPassword(hass.value, app.entity));
    }

    /** `closeModal`, also run by the cancel button and by a click on the backdrop. */
    method CloseModal()
      requires Valid()
      modifies this
      ensures Valid()
      ensures modalApp == None
      ensures config == old(config) && hass == old(hass) && modalPassword == old(modalPassword)
      ensures effects == old(effects)
    {
      modalApp := None;
    }

    /** `saveModalPassword`: stores the draft for the open app and closes the modal. */
    method SaveModalPassword()
      requires Valid()
      modifies this
      ensures Valid()
      ensures modalApp == None
      ensures config == old(config) && hass == old(hass) && modalPassword == old(modalPassword)
      ensures old(modalApp).Some? ==>
        effects == old(effects) + [SetValue(old(modalApp).value.entity, old(modalPassword).value)]
      ensures old(modalApp).None? ==> effects == old(effects)
    {
      if modalApp.Some? {
        SetPassword(modalApp.value.entity, modalPassword.value);
        CloseModal();
      }
    }

    /**
     * `generateInModal`: replaces the draft with a new password for the open
     * app and copies it; the modal stays on the same app.
     */
    method GenerateInModal(randoms: seq<real>)
      requires Valid()
      requires modalApp.Some? ==>
        |randoms| == Generator.DrawCount(PasswordLength(modalApp.value)) && Generator.IsDraws(randoms)
      modifies this
      ensures Valid()
      ensures config == old(config) && hass == old(hass) && modalApp == old(modalApp)
      ensures old(modalApp).Some? ==>
        var pw := GenerateFor(old(modalApp).value, randoms);
        modalPassword == Some(pw) && effects == old(effects) + [Clipboard(pw), Toast(CopiedMessage)]
      ensures old(modalApp).None? ==> modalPassword == old(modalPassword) && effects == old(effects)
    {
      if modalApp.Some? {
        var app := modalApp.value;
        modalPassword := Some(GenerateFor(app, randoms));
        Copy(modalPassword.value);
      }
    }

    /** A tile's copy button: copies the app's current value; the card's state stays as it is. */
    method CopyClick(app: AppEntry)
      requires Valid() && hass.Some?
      modifies this
      ensures Valid()
      ensures config == old(config) && hass == old(hass)
      ensures modalApp == old(modalApp) && modalPassword == old(modalPassword)
      ensures effects == old(effects) + [Clipboard(GetPassword(hass.value, app.entity)), Toast(CopiedMessage)]
    {
      var pw := GetPassword(hass.value, app.entity);
      Copy(pw);
    }

    /** The modal's save button: takes the input's value as the draft, then saves. */
    method SaveClick(input: string)
      requires Valid()
      modifies this
      ensures Valid()
      ensures modalApp == None && modalPassword == Some(input)
      ensures config == old(config) && hass == old(hass)
      ensures old(modalApp).Some? ==> effects == old(effects) + [SetValue(old(modalApp).value.entity, input)]
      ensures old(modalApp).None? ==> effects == old(effects)
    {
      modalPassword := Some(input);
      SaveModalPassword();
    }
  }
}
