/**
 * The application settings file: `load_app_settings` lays the saved keys
 * over the defaults and normalises the port; `save_app_settings` lays a
 * payload over the loaded settings, normalises the port again and writes
 * the result. The file's decoded content is an input (`None` when the file
 * is missing or is not JSON) and the written content is the result.
 */
module Settings {
  import opened Common
  import opened Assoc
  import opened Values
  import opened WebApp

  /** The settings used where the file says nothing. */
  function Defaults(): Dict {
    [("defaultSource", VStr("qobuz")), ("debugLogging", VBool(false)), ("port", VInt(DefaultPort))]
  }

  /** A decoded JSON object has each key once; any other decoded value is acceptable as it is. */
  predicate Decoded(file: Option<Value>) {
    file.Some? && file.value.VDict? ==> UniqueKeys(file.value.fields)
  }

  /** `load_app_settings`; a file holding something other than an object makes `{**defaults, **saved}` raise. */
  function LoadAppSettings(file: Option<Value>): Result<Dict> {
    match file
    case None => Ok(Defaults())
    case Some(VDict(saved)) => Ok(Set(Merge(Defaults(), saved), "port", VInt(NormalizePort(Lookup(saved, "port")))))
    case Some(_) => Raised(TypeError)
  }

  /** `save_app_settings(payload)`: the merged settings, which are also what the file then holds. */
  function SaveAppSettings(file: Option<Value>, payload: Dict): Result<Dict> {
    match LoadAppSettings(file)
    case Raised(e) => Raised(e)
    case Ok(loaded) =>
      var merged := Merge(loaded, payload);
      Ok(Set(merged, "port", VInt(NormalizePort(GetOr(payload, "port", Lookup(merged, "port"))))))
  }

  /** The stored port is an integer above zero. */
  predicate PortSet(settings: Dict) {
    var p := Lookup(settings, "port");
    p.VInt? && p.i > 0
  }

  /** What every loaded or saved settings dict is: a real dict, with every default key and a positive port. */
  ghost predicate WellFormed(settings: Dict) {
    && UniqueKeys(settings)
    && PortSet(settings)
    && forall k :: HasKey(Defaults(), k) ==> HasKey(settings, k)
  }

  /** Python's `==` on dicts: the same value under every key, whatever the order. */
  ghost predicate SameDict(a: Dict, b: Dict) {
    forall k :: Get(a, k) == Get(b, k)
  }

  lemma DefaultsWellFormed()
    ensures WellFormed(Defaults())
    ensures Lookup(Defaults(), "port") == VInt(DefaultPort)
  {
    var d := Defaults();
    IndexOfIs(d, "port", 2);
  }

  /** Setting the normalised port on a real dict keeps it real and makes its port positive. */
  lemma SetPort(d: Dict, p: int)
    requires UniqueKeys(d) && p > 0
    ensures UniqueKeys(Set(d, "port", VInt(p))) && Lookup(Set(d, "port", VInt(p)), "port") == VInt(p)
    ensures forall k :: k != "port" ==> Get(Set(d, "port", VInt(p)), k) == Get(d, k)
    ensures forall k :: HasKey(Set(d, "port", VInt(p)), k) <==> HasKey(d, k) || k == "port"
  {
    SetUnique(d, "port", VInt(p));
    GetSetSame(d, "port", VInt(p));
    forall k | k != "port"
      ensures Get(Set(d, "port", VInt(p)), k) == Get(d, k)
      ensures HasKey(Set(d, "port", VInt(p)), k) <==> HasKey(d, k)
    {
      GetSetOther(d, "port", VInt(p), k);
    }
  }

  /**
   * Loading gives the defaults when there is no usable file, raises when the
   * file holds something other than an object, and otherwise gives every
   * saved key's value (the defaults' where nothing is saved), except that
   * the port is the saved one normalised.
   */
  lemma LoadAppSettingsSpec(file: Option<Value>)
    requires Decoded(file)
    ensures file.None? ==> LoadAppSettings(file) == Ok(Defaults())
    ensures LoadAppSettings(file).Raised? <==> file.Some? && !file.value.VDict?
    ensures LoadAppSettings(file).Ok? ==> WellFormed(LoadAppSettings(file).value)
    ensures LoadAppSettings(file).Ok? && file.Some? ==>
              var saved := file.value.fields;
              && Lookup(LoadAppSettings(file).value, "port") == VInt(NormalizePort(Lookup(saved, "port")))
              && forall k :: k != "port" ==>
                   Get(LoadAppSettings(file).value, k) == if HasKey(saved, k) then Get(saved, k) else Get(Defaults(), k)
  {
    DefaultsWellFormed();
    if file.Some? && file.value.VDict? {
      var saved := file.value.fields;
      var m := Merge(Defaults(), saved);
      MergeUnique(Defaults(), saved);
      forall k ensures Get(m, k) == (if HasKey(saved, k) then Get(saved, k) else Get(Defaults(), k))
                   && (HasKey(m, k) <==> HasKey(Defaults(), k) || HasKey(saved, k))
      {
        GetMerge(Defaults(), saved, k);
      }
      SetPort(m, NormalizePort(Lookup(saved, "port")));
    }
  }

  /**
   * Saving keeps the loaded settings apart from the payload's keys, which
   * override them; the port is the payload's normalised when it has one,
   * else the loaded (already normal) port. The result is well formed, and
   * saving raises exactly when loading does.
   */
  lemma SaveAppSettingsSpec(file: Option<Value>, payload: Dict)
    requires Decoded(file) && UniqueKeys(payload)
    ensures SaveAppSettings(file, payload).Raised? <==> LoadAppSettings(file).Raised?
    ensures SaveAppSettings(file, payload).Ok? ==>
              var loaded, r := LoadAppSettings(file).value, SaveAppSettings(file, payload).value;
              && WellFormed(r)
              && (forall k :: k != "port" ==> Get(r, k) == if HasKey(payload, k) then Get(payload, k) else Get(loaded, k))
              && (HasKey(payload, "port") ==> Lookup(r, "port") == VInt(NormalizePort(Lookup(payload, "port"))))
              && (!HasKey(payload, "port") ==> Lookup(r, "port") == Lookup(loaded, "port"))
  {
    LoadAppSettingsSpec(file);
    if LoadAppSettings(file).Ok? {
      var loaded := LoadAppSettings(file).value;
      var merged := Merge(loaded, payload);
      MergeUnique(loaded, payload);
      forall k ensures Get(merged, k) == (if HasKey(payload, k) then Get(payload, k) else Get(loaded, k))
                   && (HasKey(merged, k) <==> HasKey(loaded, k) || HasKey(payload, k))
      {
        GetMerge(loaded, payload, k);
      }
      var given := GetOr(payload, "port", Lookup(merged, "port"));
      if !HasKey(payload, "port") {
        assert given == Lookup(loaded, "port");
        NormalizePortSpec(given);
      }
      SetPort(merged, NormalizePort(given));
    }
  }

  /**
   * What `save_app_settings` writes reads back as the same settings: loading
   * the written file gives the dict `save_app_settings` returned.
   */
  lemma LoadAfterSave(file: Option<Value>, payload: Dict)
    requires Decoded(file) && UniqueKeys(payload)
    requires SaveAppSettings(file, payload).Ok?
    ensures var saved := SaveAppSettings(file, payload).value;
            && LoadAppSettings(Some(VDict(saved))).Ok?
            && SameDict(LoadAppSettings(Some(VDict(saved))).value, saved)
  {
    SaveAppSettingsSpec(file, payload);
    var saved := SaveAppSettings(file, payload).value;
    var back := Some(VDict(saved));
    LoadAppSettingsSpec(back);
    NormalizePortSpec(Lookup(saved, "port"));
    forall k ensures Get(LoadAppSettings(back).value, k) == Get(saved, k) {
      if k == "port" {
        assert HasKey(Defaults(), "port") by { HasKeyAt(Defaults(), 2); }
      } else if !HasKey(saved, k) {
        assert !HasKey(Defaults(), k);
      }
    }
  }
}
