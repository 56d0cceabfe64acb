/**
 * The settings store: the two process-wide strings that drive the CORS
 * decision, set at start-up from the command-line flags, shown by the
 * settings page and overwritten by the update-settings endpoint.
 */
module Settings {
  import opened Wrappers
  import opened Http

  /** Flag defaults: `-cors-policy-mode localapps`, `-allowed-origin ""`. */
  const DefaultCorsPolicyMode: string := "localapps"
  const DefaultAllowedOrigin: string := ""

  /** The reply body of a successful update. */
  const UpdateSuccessBody: string := "{\"status\": \"success\"}"

  /** The settings as the JSON body and the settings page carry them. */
  datatype SettingsData = SettingsData(corsPolicyMode: string, allowOrigin: string, lang: string)

  class SettingsStore {
    var corsPolicyMode: string
    var allowedOrigin: string

    /** Start-up: the values given by the flags. */
    constructor (mode: string, origin: string)
      ensures corsPolicyMode == mode && allowedOrigin == origin
    {
      corsPolicyMode := mode;
      allowedOrigin := origin;
    }

    /** Start-up with no flags given. */
    constructor Default()
      ensures corsPolicyMode == DefaultCorsPolicyMode && allowedOrigin == DefaultAllowedOrigin
    {
      corsPolicyMode := DefaultCorsPolicyMode;
      allowedOrigin := DefaultAllowedOrigin;
    }

    /** The data the settings page renders: both settings, read from the store. */
    function PageData(lang: string): (d: SettingsData)
      reads this
      ensures d.corsPolicyMode == corsPolicyMode && d.allowOrigin == allowedOrigin
      ensures d.lang == lang
    {
      SettingsData(corsPolicyMode, allowedOrigin, lang)
    }

    /** Overwrites both settings; the mode is taken as given, whatever it is. */
    method Update(mode: string, origin: string)
      modifies this
      ensures corsPolicyMode == mode && allowedOrigin == origin
    {
      corsPolicyMode := mode;
      allowedOrigin := origin;
    }

    /**
     * The /update-settings endpoint: 405 for a method other than POST, 400 for
     * a body that does not decode, both leaving the store alone; otherwise both
     * settings are overwritten from the body, unchecked, and the reply is 200.
     */
    method HandleUpdateSettings(w: ResponseWriter, verb: string, body: Decoded<SettingsData>)
      requires w.status.None?
      modifies this, w
      ensures verb != MethodPost ==> w.status == Some(StatusMethodNotAllowed)
      ensures verb == MethodPost && body.Malformed? ==> w.status == Some(StatusBadRequest)
      ensures verb != MethodPost || body.Malformed? ==> unchanged(this)
      ensures verb == MethodPost && body.Decoded? ==>
                && corsPolicyMode == body.value.corsPolicyMode
                && allowedOrigin == body.value.allowOrigin
                && w.status == Some(StatusOK)
                && w.body == old(w.body) + UpdateSuccessBody
    {
      if verb != MethodPost {
        w.Error(StatusMethodNotAllowed);
        return;
      }
      match body {
        case Malformed =>
          w.Error(StatusBadRequest);
        case Decoded(settings) =>
          Update(settings.corsPolicyMode, settings.allowOrigin);
          w.WriteHeader(StatusOK);
          w.Write(UpdateSuccessBody);
      }
    }
  }

  /** What the settings page shows after an update is what was saved. */
  method SaveThenShow(store: SettingsStore, w: ResponseWriter, mode: string, origin: string, lang: string)
    returns (shown: SettingsData)
    requires w.status.None?
    modifies store, w
    ensures shown == SettingsData(mode, origin, lang)
  {
    store.HandleUpdateSettings(w, MethodPost, Decoded(SettingsData(mode, origin, "")));
    shown := store.PageData(lang);
  }
}
