/**
 * The configuration the core reads: an ordered list of named property sources (the
 * first source holding a key wins), its flat view as one map, required reads that fail
 * with an IllegalStateException, and the conversion of a comma-separated value into a
 * list of names.
 */
module Properties {
  import opened Wrappers

  /** An IllegalStateException and its message; it has no cause. */
  datatype StartupError = IllegalState(message: string)

  /** What Environment.getRequiredProperty throws for an absent key. */
  function RequiredKeyNotFound(key: string): StartupError
  {
    IllegalState("Required key '" + key + "' not found")
  }

  /** What requireProperty throws for an absent key. */
  function PropertyRequired(key: string): StartupError
  {
    IllegalState("Property '" + key + "' is required")
  }

  /** The key a requireProperty message names, if the message has that shape. */
  function KeyOfPropertyRequired(message: string): Option<string>
  {
    var pre, post := "Property '", "' is required";
    if |message| >= |pre| + |post| && message[..|pre|] == pre && message[|message| - |post|..] == post
    then Some(message[|pre|..|message| - |post|])
    else None
  }

  /** The message of a requireProperty failure names exactly the missing key. */
  lemma PropertyRequiredNamesKey(key: string)
    ensures KeyOfPropertyRequired(PropertyRequired(key).message) == Some(key)
  {
    var m, pre, post := PropertyRequired(key).message, "Property '", "' is required";
    assert m == pre + key + post;
    assert m[..|pre|] == pre;
    assert m[|m| - |post|..] == post;
    assert m[|pre|..|m| - |post|] == key;
  }

  /** getRequiredProperty over a flat environment. */
  function RequiredProperty(env: map<string, string>, key: string): (r: Result<string, StartupError>)
    ensures r.Success? <==> key in env
    ensures r.Success? ==> r.value == env[key]
    ensures r.Failure? ==> r.error == RequiredKeyNotFound(key)
  {
    if key in env then Success(env[key]) else Failure(RequiredKeyNotFound(key))
  }

  /** A named property source (a PropertiesPropertySource or a MapPropertySource). */
  datatype PropertySource = PropertySource(name: string, properties: map<string, string>)

  /** The value of `key` in the environment: taken from the first source holding it. */
  function Resolve(sources: seq<PropertySource>, key: string): (r: Option<string>)
    ensures r.Some? <==> exists i :: 0 <= i < |sources| && key in sources[i].properties
    ensures r.Some? ==> exists i :: 0 <= i < |sources| && key in sources[i].properties
                          && r.value == sources[i].properties[key]
                          && forall j :: 0 <= j < i ==> key !in sources[j].properties
  {
    if sources == [] then None
    else if key in sources[0].properties then Some(sources[0].properties[key])
    else
      var r := Resolve(sources[1..], key);
      assert forall i :: 1 <= i < |sources| ==> sources[i] == sources[1..][i - 1];
      if r.Some? then
        var i :| 0 <= i < |sources[1..]| && key in sources[1..][i].properties
                 && r.value == sources[1..][i].properties[key]
                 && forall j :: 0 <= j < i ==> key !in sources[1..][j].properties;
        assert forall j :: 0 <= j < i + 1 ==> key !in sources[j].properties by {
          forall j | 0 <= j < i + 1 ensures key !in sources[j].properties {
            if j > 0 { assert sources[j] == sources[1..][j - 1]; }
          }
        }
        r
      else r
  }

  /** The environment seen as one map: every key any source holds, with the value of
      the first source holding it. */
  function Flatten(sources: seq<PropertySource>): (env: map<string, string>)
    ensures forall k :: k in env <==> Resolve(sources, k).Some?
    ensures forall k :: k in env ==> Resolve(sources, k) == Some(env[k])
  {
    if sources == [] then map[]
    else
      var rest := Flatten(sources[1..]);
      assert forall k :: (Resolve(sources, k) ==
                           if k in sources[0].properties then Some(sources[0].properties[k])
                           else Resolve(sources[1..], k));
      rest + sources[0].properties
  }

  /** Java's String.trim: drops every leading and trailing character up to ' '. */
  function TrimStart(s: string): string
  {
    if s != [] && s[0] <= ' ' then TrimStart(s[1..]) else s
  }

  function TrimEnd(s: string): string
  {
    if s != [] && s[|s| - 1] <= ' ' then TrimEnd(s[..|s| - 1]) else s
  }

  function Trim(s: string): string
  {
    TrimEnd(TrimStart(s))
  }

  /** A name that trimming leaves unchanged. */
  predicate IsTrimmed(s: string)
  {
    s == [] || (s[0] > ' ' && s[|s| - 1] > ' ')
  }

  /** The pieces of `s` between commas; there is always at least one. */
  function Pieces(s: string): (r: seq<string>)
    ensures |r| >= 1
  {
    if s == [] then [""]
    else if s[0] == ',' then [""] + Pieces(s[1..])
    else
      var r := Pieces(s[1..]);
      [[s[0]] + r[0]] + r[1..]
  }

  /** The conversion of a property value to a List or Set: the empty value gives no
      element, any other value is split at every comma and each piece is trimmed. */
  function CommaList(s: string): seq<string>
  {
    if s == [] then []
    else
      var p := Pieces(s);
      seq(|p|, i requires 0 <= i < |p| => Trim(p[i]))
  }

  /** Names written back to back, separated by commas. */
  function Join(names: seq<string>): string
  {
    if names == [] then ""
    else if |names| == 1 then names[0]
    else names[0] + "," + Join(names[1..])
  }

  lemma {:induction false} PiecesOfCommaFree(a: string)
    requires ',' !in a
    ensures Pieces(a) == [a]
  {
    if a != [] {
      PiecesOfCommaFree(a[1..]);
      assert [a[0]] + a[1..] == a;
    }
  }

  lemma {:induction false} PiecesSplitsAtFirstComma(a: string, rest: string)
    requires ',' !in a
    ensures Pieces(a + "," + rest) == [a] + Pieces(rest)
  {
    if a == [] {
      assert a + "," + rest == [','] + rest;
      assert (a + "," + rest)[1..] == rest;
    } else {
      PiecesSplitsAtFirstComma(a[1..], rest);
      assert (a + "," + rest)[1..] == a[1..] + "," + rest;
      assert [a[0]] + a[1..] == a;
    }
  }

  lemma {:induction false} PiecesOfJoin(names: seq<string>)
    requires |names| >= 1
    requires forall i :: 0 <= i < |names| ==> ',' !in names[i]
    ensures Pieces(Join(names)) == names
  {
    if |names| == 1 {
      PiecesOfCommaFree(names[0]);
    } else {
      PiecesOfJoin(names[1..]);
      PiecesSplitsAtFirstComma(names[0], Join(names[1..]));
      assert [names[0]] + names[1..] == names;
    }
  }

  /** A list of non-empty, trimmed, comma-free names written as a comma-separated value
      is read back as the same list, in the same order. */
  lemma CommaListOfJoin(names: seq<string>)
    requires forall i :: 0 <= i < |names| ==> names[i] != "" && IsTrimmed(names[i]) && ',' !in names[i]
    ensures CommaList(Join(names)) == names
  {
    if names != [] {
      PiecesOfJoin(names);
      assert Join(names) != [] by {
        if |names| > 1 { assert |Join(names)| >= |names[0]|; }
      }
      var p := Pieces(Join(names));
      forall i | 0 <= i < |names| ensures Trim(p[i]) == names[i] {
        assert p[i] == names[i];
      }
    }
  }
}
