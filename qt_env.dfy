/** cd/go/task/qt/Qt.java: the names of the task's environment variables and the lookups of the Qt
    architecture, the mkspec and the qmake CONFIG entries in the job environment. */
module QtEnv {
  import opened JavaText

  const MODE_BUILD: string := "BUILD"
  const MODE_TEST: string := "TEST"

  const QT_HOME: string := "QT_HOME"
  const QT_ARCH: string := "QT_ARCH"
  const QT_SPEC: string := "QT_SPEC"
  const QT_CONFIG: string := "QT_CONFIG"

  const QT_REPO: string := "QT_REPO"
  const QT_BUILD: string := "QT_BUILD"
  const QT_PLUGIN_PATH: string := "QT_PLUGIN_PATH"
  const QML2_IMPORT_PATH: string := "QML2_IMPORT_PATH"

  const QT_REPOSITORY: string := "QT_REPOSITORY"
  const RELEASE: string := "RELEASE"

  /** Map.get: the entry for key, or null. */
  function Lookup(env: map<string, string>, key: string): (r: Option<string>)
    ensures r.Some? <==> key in env
    ensures r.Some? ==> r.value == env[key]
  {
    if key in env then Some(env[key]) else None
  }

  /** Qt.getArch: the QT_ARCH entry of the job environment, null when it is absent. */
  function GetArch(env: map<string, string>): (r: Option<string>)
    ensures r.Some? <==> QT_ARCH in env
    ensures r.Some? ==> r.value == env[QT_ARCH]
  {
    Lookup(env, QT_ARCH)
  }

  /** Qt.getSpec: the QT_SPEC entry of the job environment, null when it is absent. */
  function GetSpec(env: map<string, string>): (r: Option<string>)
    ensures r.Some? <==> QT_SPEC in env
    ensures r.Some? ==> r.value == env[QT_SPEC]
  {
    Lookup(env, QT_SPEC)
  }

  /** Each string trimmed, in order. */
  function TrimAll(xs: seq<string>): (r: seq<string>)
    ensures |r| == |xs|
    ensures forall i :: 0 <= i < |xs| ==> r[i] == Trim(xs[i])
  {
    seq(|xs|, i requires 0 <= i < |xs| => Trim(xs[i]))
  }

  /** What Qt.getConfig collects: nothing when QT_CONFIG is absent or blank, otherwise the trimmed
      pieces of its comma split. */
  function ConfigEntries(env: map<string, string>): seq<string>
  {
    var v := Lookup(env, QT_CONFIG);
    if v.None? || IsBlank(v.value) then [] else TrimAll(Split(v.value, {','}))
  }

  /** Qt.getConfig: adds the trimmed comma-separated pieces of QT_CONFIG one by one. */
  method GetConfig(env: map<string, string>) returns (configs: seq<string>)
    ensures configs == ConfigEntries(env)
  {
    configs := [];
    var v := Lookup(env, QT_CONFIG);
    if v.Some? && !IsBlank(v.value) {
      var parts := Split(v.value, {','});
      var i := 0;
      while i < |parts|
        invariant 0 <= i <= |parts|
        invariant configs == TrimAll(parts[..i])
      {
        configs := configs + [Trim(parts[i])];
        i := i + 1;
      }
      assert parts[..i] == parts;
    }
  }

  /** An absent or blank QT_CONFIG gives no entries; otherwise there is one entry per piece of the Java
      comma split, in order, each the trimmed piece (empty middle pieces are kept). */
  lemma ConfigEntriesSpec(env: map<string, string>)
    ensures QT_CONFIG !in env || IsBlank(env[QT_CONFIG]) ==> ConfigEntries(env) == []
    ensures QT_CONFIG in env && !IsBlank(env[QT_CONFIG]) ==>
      var parts := Split(env[QT_CONFIG], {','});
      |ConfigEntries(env)| == |parts| && forall i :: 0 <= i < |parts| ==> ConfigEntries(env)[i] == Trim(parts[i])
  {
  }

  /** The entries are what the variable lists: a QT_CONFIG without blanks or control characters and
      without a trailing comma is the comma join of its entries. */
  lemma ConfigRoundTrip(env: map<string, string>)
    requires QT_CONFIG in env && env[QT_CONFIG] != ""
    requires forall i :: 0 <= i < |env[QT_CONFIG]| ==> env[QT_CONFIG][i] > ' '
    requires env[QT_CONFIG][|env[QT_CONFIG]| - 1] != ','
    ensures Join(",", ConfigEntries(env)) == env[QT_CONFIG]
  {
    var v := env[QT_CONFIG];
    BlankIff(v);
    var parts := Split(v, {','});
    SplitChars(v, {','});
    forall k | 0 <= k < |parts|
      ensures Trim(parts[k]) == parts[k]
    {
      if parts[k] != [] {
        assert parts[k][0] in v;
        assert parts[k][|parts[k]| - 1] in v;
        TrimNoop(parts[k]);
      }
    }
    assert TrimAll(parts) == parts;
    SplitJoin(v, ',');
  }

  /** The split behind the example below: the trailing empty piece is dropped. */
  lemma ConfigSplit()
    ensures Split("a, ,b,", {','}) == ["a", " ", "b"]
  {
    var parts := ["a", " ", "b", ""];
    assert parts[1..] == [" ", "b", ""] && parts[1..][1..] == ["b", ""];
    assert Join([','], ["b", ""]) == "b,";
    assert Join([','], [" ", "b", ""]) == " ,b,";
    assert Join([','], parts) == "a, ,b,";
    forall k | 0 <= k < |parts|
      ensures !HasAny(parts[k], {','})
    {
    }
    SplitOfPieces(parts, ',');
    assert DropTrailingEmpty(parts) == parts[..3];
  }

  /** The trimmed pieces of that split. */
  lemma ConfigTrims()
    ensures TrimAll(["a", " ", "b"]) == ["a", "", "b"]
  {
    assert TrimStart(" ") == TrimStart("");
    assert Trim("a") == "a" && Trim(" ") == "" && Trim("b") == "b";
  }

  /** A blank middle entry is kept as "" and a trailing comma adds nothing. */
  lemma ConfigExample()
    ensures ConfigEntries(map[QT_CONFIG := "a, ,b,"]) == ["a", "", "b"]
  {
    var v := "a, ,b,";
    assert Lookup(map[QT_CONFIG := v], QT_CONFIG) == Some(v);
    assert !IsBlank(v) by { BlankIff(v); assert v[0] > ' '; }
    ConfigSplit();
    ConfigTrims();
  }
}
