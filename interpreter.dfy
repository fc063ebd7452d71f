/**
 * Which Python interpreter runs pylint: the extension's own setting, then the
 * Python extension's active environment, then VS Code's default interpreter
 * setting, then "python3". The settings and the Python extension's answers are
 * inputs.
 */
module Interpreter {
  import opened Wrappers
  import opened Text

  const LastResort := "python3"

  /** A string JavaScript counts as true: present and not empty. */
  predicate Given(o: Option<string>) {
    o.Some? && o.value != []
  }

  /** `(cfg.get(key) || "").trim() || undefined` for a string setting. */
  function SettingValue(raw: Option<string>): (r: Option<string>)
    ensures r.None? <==> raw.None? || All(raw.value, Space)
    ensures r.Some? ==> r.value == Trim(raw.value) && r.value != []
  {
    var t := Trim(raw.GetOr(""));
    if t == [] then None else Some(t)
  }

  /** A setting with nothing but whitespace is no setting. */
  lemma BlankSettingIsAbsent(raw: string)
    requires All(raw, Space)
    ensures SettingValue(Some(raw)) == SettingValue(None) == None
  {
  }

  /** What a call into the Python extension's API does. */
  datatype Call<T> =
    | Missing       // the API has no such function
    | Throws        // the call throws or its promise rejects
    | Returns(value: T)

  /** What `getActiveEnvironmentPath` returns. */
  datatype EnvironmentPath =
    | PathString(s: string)        // a string
    | PathObject(path: Option<string>)  // an object, with or without `path`
    | NoPath                       // undefined or null

  /** The Python extension as `tryPythonExtensionApi` finds it. `activeExecutable`
      is what `getActiveEnvironment(folder)` yields at `env.executable.uri.fsPath`
      (None when any link of that chain is missing). */
  datatype PythonExtension =
    | NotInstalled
    | ActivationThrows
    | Activated(activeExecutable: Call<Option<string>>, activePath: Call<EnvironmentPath>)

  /** The string variant 2 reads: the string itself, or the object's `path`. */
  function PathOf(p: EnvironmentPath): Option<string> {
    match p
    case PathString(s) => Some(s)
    case PathObject(path) => path
    case NoPath => None
  }

  /** `tryPythonExtensionApi`: variant 1, then variant 2; None when the extension
      is missing, neither variant gives a path, or anything throws (a throw in
      variant 1 skips variant 2). */
  function FromPythonExtension(ext: PythonExtension): (r: Option<string>)
    ensures r.Some? ==> r.value != [] && ext.Activated?
    ensures r.Some? && ext.activeExecutable.Returns? && Given(ext.activeExecutable.value) ==>
      r == ext.activeExecutable.value
    ensures r.Some? && !(ext.activeExecutable.Returns? && Given(ext.activeExecutable.value)) ==>
      ext.activeExecutable != Throws && ext.activePath.Returns? && r == PathOf(ext.activePath.value)
  {
    match ext
    case NotInstalled => None
    case ActivationThrows => None
    case Activated(v1, v2) =>
      if v1.Throws? then None
      else if v1.Returns? && Given(v1.value) then v1.value
      else if v2.Returns? && Given(PathOf(v2.value)) then PathOf(v2.value)
      else None
  }

  /** A working variant 1 wins over variant 2. */
  lemma ActiveEnvironmentFirst(exe: string, v2: Call<EnvironmentPath>)
    requires exe != []
    ensures FromPythonExtension(Activated(Returns(Some(exe)), v2)) == Some(exe)
  {
  }

  /** Variant 2 accepts a string or an object with a path alike. */
  lemma ActivePathShapes(v1: Call<Option<string>>, p: string)
    requires p != [] && v1 != Throws && !(v1.Returns? && Given(v1.value))
    ensures FromPythonExtension(Activated(v1, Returns(PathString(p))))
         == FromPythonExtension(Activated(v1, Returns(PathObject(Some(p)))))
         == Some(p)
  {
  }

  /** `resolve`: the first source that gives a path. */
  function Resolve(overrideSetting: Option<string>, ext: PythonExtension, defaultSetting: Option<string>): (r: string)
    ensures r != []
    ensures SettingValue(overrideSetting).Some? ==> r == SettingValue(overrideSetting).value
    ensures SettingValue(overrideSetting).None? && FromPythonExtension(ext).Some? ==>
      r == FromPythonExtension(ext).value
    ensures (SettingValue(overrideSetting).None? && FromPythonExtension(ext).None?
             && SettingValue(defaultSetting).Some?) ==> r == SettingValue(defaultSetting).value
    ensures (SettingValue(overrideSetting).None? && FromPythonExtension(ext).None?
             && SettingValue(defaultSetting).None?) ==> r == LastResort
  {
    var overridden := SettingValue(overrideSetting);
    if overridden.Some? then overridden.value
    else
      var fromExtension := FromPythonExtension(ext);
      if fromExtension.Some? then fromExtension.value
      else
        var fromDefault := SettingValue(defaultSetting);
        if fromDefault.Some? then fromDefault.value
        else LastResort
  }

  /** The result is always one of the four sources. */
  lemma ResolveIsASource(overrideSetting: Option<string>, ext: PythonExtension, defaultSetting: Option<string>)
    ensures var r := Resolve(overrideSetting, ext, defaultSetting);
      || Some(r) == SettingValue(overrideSetting)
      || Some(r) == FromPythonExtension(ext)
      || Some(r) == SettingValue(defaultSetting)
      || r == LastResort
  {
  }

  /** A whitespace-only override is passed over as if it were not set. */
  lemma BlankOverrideIgnored(overrideSetting: string, ext: PythonExtension, defaultSetting: Option<string>)
    requires All(overrideSetting, Space)
    ensures Resolve(Some(overrideSetting), ext, defaultSetting) == Resolve(None, ext, defaultSetting)
  {
  }

  /** A failing Python extension counts as a missing one. */
  lemma FailingExtensionFallsThrough(overrideSetting: Option<string>, defaultSetting: Option<string>,
                                     v2: Call<EnvironmentPath>)
    ensures Resolve(overrideSetting, ActivationThrows, defaultSetting)
         == Resolve(overrideSetting, Activated(Throws, v2), defaultSetting)
         == Resolve(overrideSetting, NotInstalled, defaultSetting)
  {
  }

  /** The extension's override, padded or not, beats every other source. */
  lemma OverrideWins(pad1: string, p: string, pad2: string, ext: PythonExtension, defaultSetting: Option<string>)
    requires All(pad1, Space) && All(pad2, Space)
    requires p != [] && !IsSpace(p[0]) && !IsSpace(p[|p| - 1])
    ensures Resolve(Some(pad1 + p + pad2), ext, defaultSetting) == p
  {
    TrimPadded(pad1, p, pad2);
  }
}
