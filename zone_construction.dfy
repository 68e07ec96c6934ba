/** Zone construction: `NewInstance` forwards the caller's arguments to the
    zone constructor behind a constructor-type tag, and `NewCallback`
    validates them and decides whether a new zone is created (with its
    settings flattened into one option string) or an existing one is looked
    up. Constructing or looking up the engine's zone proxy is external; the
    model stops at the decision. */
module ZoneConstruction {
  import opened Wrappers
  import opened JsValues

  /** The constructor-type tag `NewInstance` puts in front of the arguments. */
  datatype ConstructorType = Create | Get

  function Tag(t: ConstructorType): uint32
  {
    match t
    case Create => 0
    case Get => 1
  }

  /** What a successful constructor call asks of the engine. */
  datatype ZoneAction =
    | NewZone(id: string, options: string)
    | ExistingZone(id: string)

  const NOT_A_CONSTRUCT_CALL := "Only constructor call is allowed"
  const CREATE_ID_NOT_STRING := "first argument to createZone must be a string"
  const SETTINGS_NOT_OBJECT := "second argument to createZone must be an object"
  const GET_ID_NOT_STRING := "first argument to getZone must be a string"

  // ---------------------------------------------------------------------
  // Settings flattening

  /** The option text contributed by one settings entry. */
  function SettingOption(entry: (string, string)): string
  {
    " --" + entry.0 + " " + entry.1
  }

  /** The option string for a list of settings entries, in their order. */
  function Flattened(entries: seq<(string, string)>): (options: string)
    ensures options == [] <==> entries == []
    ensures options == [] || options[0] == ' '
  {
    if entries == [] then "" else SettingOption(entries[0]) + Flattened(entries[1..])
  }

  /** Appending an entry appends its option text. */
  lemma {:induction false} FlattenedSnoc(entries: seq<(string, string)>, entry: (string, string))
    ensures Flattened(entries + [entry]) == Flattened(entries) + SettingOption(entry)
  {
    if entries != [] {
      assert (entries + [entry])[1..] == entries[1..] + [entry];
      FlattenedSnoc(entries[1..], entry);
    } else {
      assert entries + [entry] == [entry];
    }
  }

  /** Flattens settings entries the way the constructor's string stream does. */
  method FlattenSettings(entries: seq<(string, string)>) returns (options: string)
    ensures options == Flattened(entries)
  {
    options := "";
    for i := 0 to |entries|
      invariant options == Flattened(entries[..i])
    {
      FlattenedSnoc(entries[..i], entries[i]);
      assert entries[..i + 1] == entries[..i] + [entries[i]];
      options := options + SettingOption(entries[i]);
    }
    assert entries[..|entries|] == entries;
  }

  // The option string read back: valid when no key or value holds a space.

  predicate NoSpace(s: string) { forall i :: 0 <= i < |s| ==> s[i] != ' ' }

  predicate SpaceFree(entries: seq<(string, string)>)
  {
    forall i :: 0 <= i < |entries| ==> NoSpace(entries[i].0) && NoSpace(entries[i].1)
  }

  /** Splits off the text before the first space. */
  function SplitAtSpace(s: string): (r: (string, string))
    ensures r.0 + r.1 == s
    ensures NoSpace(r.0)
    ensures r.1 == [] || r.1[0] == ' '
  {
    if s == [] || s[0] == ' ' then ([], s)
    else
      var (token, rest) := SplitAtSpace(s[1..]);
      ([s[0]] + token, rest)
  }

  /** Reads an option string of the form ` --key value --key value ...`. */
  function ParseOptions(s: string): Option<seq<(string, string)>>
    decreases |s|
  {
    if s == [] then Some([])
    else if |s| < 3 || s[..3] != " --" then None
    else
      var (key, afterKey) := SplitAtSpace(s[3..]);
      if afterKey == [] then None
      else
        var (value, rest) := SplitAtSpace(afterKey[1..]);
        match ParseOptions(rest)
        case None => None
        case Some(tail) => Some([(key, value)] + tail)
  }

  lemma {:induction false} SplitAtSpaceOfToken(token: string, rest: string)
    requires NoSpace(token)
    requires rest == [] || rest[0] == ' '
    ensures SplitAtSpace(token + rest) == (token, rest)
  {
    if token == [] {
      assert token + rest == rest;
    } else {
      assert (token + rest)[1..] == token[1..] + rest;
      assert (token + rest)[0] == token[0] != ' ';
      SplitAtSpaceOfToken(token[1..], rest);
      assert [token[0]] + token[1..] == token;
    }
  }

  /** With no spaces in keys or values, the option string determines the
      settings entries and their order. */
  lemma {:induction false} FlattenedParsesBack(entries: seq<(string, string)>)
    requires SpaceFree(entries)
    ensures ParseOptions(Flattened(entries)) == Some(entries)
  {
    if entries != [] {
      var (key, value) := entries[0];
      var rest := Flattened(entries[1..]);
      var s := Flattened(entries);
      assert s == " --" + key + " " + value + rest;
      assert s[..3] == " --";
      assert s[3..] == key + (" " + value + rest);
      SplitAtSpaceOfToken(key, " " + value + rest);
      assert (" " + value + rest)[1..] == value + rest;
      SplitAtSpaceOfToken(value, rest);
      assert SpaceFree(entries[1..]) by {
        forall i | 0 <= i < |entries[1..]|
          ensures NoSpace(entries[1..][i].0) && NoSpace(entries[1..][i].1)
        {
          assert entries[1..][i] == entries[i + 1];
        }
      }
      FlattenedParsesBack(entries[1..]);
      assert [(key, value)] + entries[1..] == entries;
    }
  }

  /** Keys and values are not escaped: a value holding ` --` can stand for a
      second entry. */
  lemma FlattenedAmbiguousWithSpaces()
    ensures Flattened([("a", "b --c d")]) == Flattened([("a", "b"), ("c", "d")])
  {
  }

  // ---------------------------------------------------------------------
  // Constructor entry points

  /** The argument vector handed to the zone constructor: the tag first, then
      the caller's arguments shifted up by one. */
  method BuildConstructorArgs(t: ConstructorType, args: seq<JsValue>) returns (argv: seq<JsValue>)
    ensures |argv| == |args| + 1
    ensures argv[0] == Number(Tag(t) as int)
    ensures forall i :: 1 <= i < |argv| ==> argv[i] == args[i - 1]
  {
    var argc := |args| + 1;
    argv := [Number(Tag(t) as int)];
    for i := 1 to argc
      invariant |argv| == i
      invariant argv[0] == Number(Tag(t) as int)
      invariant forall k :: 1 <= k < i ==> argv[k] == args[k - 1]
    {
      argv := argv + [args[i - 1]];
    }
  }

  /** The zone constructor. `settingsOf` stands for the host's conversion of a
      settings object into its key/value entries, in iteration order. */
  method NewCallback(isConstructCall: bool, args: seq<JsValue>, settingsOf: JsValue -> seq<(string, string)>)
    returns (r: Result<ZoneAction, string>)
    ensures !isConstructCall ==> r == Failure(NOT_A_CONSTRUCT_CALL)
    ensures r.Success? <==>
      isConstructCall && IsString(ArgAt(args, 1)) &&
      (ToUint32(ArgAt(args, 0)) == Tag(Create) && |args| > 2 ==> IsObject(args[2]))
    ensures isConstructCall && !IsString(ArgAt(args, 1)) ==>
      r == Failure(if ToUint32(ArgAt(args, 0)) == Tag(Create) then CREATE_ID_NOT_STRING else GET_ID_NOT_STRING)
    ensures isConstructCall && IsString(ArgAt(args, 1)) && ToUint32(ArgAt(args, 0)) == Tag(Create) ==>
      r == if |args| <= 2 then Success(NewZone(args[1].s, ""))
           else if IsObject(args[2]) then Success(NewZone(args[1].s, Flattened(settingsOf(args[2]))))
           else Failure(SETTINGS_NOT_OBJECT)
    ensures isConstructCall && IsString(ArgAt(args, 1)) && ToUint32(ArgAt(args, 0)) != Tag(Create) ==>
      r == Success(ExistingZone(args[1].s))
  {
    if !isConstructCall {
      return Failure(NOT_A_CONSTRUCT_CALL);
    }
    var constructorType := ToUint32(ArgAt(args, 0));
    if constructorType == Tag(Create) {
      if !IsString(ArgAt(args, 1)) {
        return Failure(CREATE_ID_NOT_STRING);
      }
      var zoneId := ArgAt(args, 1).s;
      var options := "";
      if |args| > 2 {
        if !IsObject(args[2]) {
          return Failure(SETTINGS_NOT_OBJECT);
        }
        options := FlattenSettings(settingsOf(args[2]));
      }
      r := Success(NewZone(zoneId, options));
    } else {
      if !IsString(ArgAt(args, 1)) {
        return Failure(GET_ID_NOT_STRING);
      }
      r := Success(ExistingZone(ArgAt(args, 1).s));
    }
  }

  /** `createZone(id, settings?)` and `getZone(id)`: the constructor called
      with the tag in front of the caller's arguments. A constructor that
      threw is returned as the error its caller sees; `NewInstanceAsWritten`
      is the source's abort instead. */
  method NewInstance(t: ConstructorType, args: seq<JsValue>, settingsOf: JsValue -> seq<(string, string)>)
    returns (r: Result<ZoneAction, string>)
    ensures r.Success? <==> IsString(ArgAt(args, 0)) && (t == Create && |args| > 1 ==> IsObject(args[1]))
    ensures !IsString(ArgAt(args, 0)) ==>
      r == Failure(if t == Create then CREATE_ID_NOT_STRING else GET_ID_NOT_STRING)
    ensures t == Create && IsString(ArgAt(args, 0)) && |args| > 1 && !IsObject(args[1]) ==>
      r == Failure(SETTINGS_NOT_OBJECT)
    ensures r.Success? && t == Create ==>
      r.value == NewZone(args[0].s, if |args| > 1 then Flattened(settingsOf(args[1])) else "")
    ensures r.Success? && t == Get ==> r.value == ExistingZone(args[0].s)
  {
    var argv := BuildConstructorArgs(t, args);
    assert ArgAt(argv, 0) == Number(Tag(t) as int);
    Uint32RoundTrip(Tag(t));
    assert ArgAt(argv, 1) == ArgAt(args, 0);
    r := NewCallback(true, argv, settingsOf);
  }

  /** The outcome of `constructor->NewInstance(...).ToLocalChecked()`: the
      constructed zone, or the process abort that `ToLocalChecked` raises on
      the empty handle a throwing constructor leaves. */
  datatype Instance = Constructed(action: ZoneAction) | Abort

  /** `NewInstance` as written: a constructor that throws does not surface as
      an error to the caller of createZone/getZone but aborts the process,
      for instance `createZone(5)` or `createZone("z", 1)`. */
  method NewInstanceAsWritten(t: ConstructorType, args: seq<JsValue>, settingsOf: JsValue -> seq<(string, string)>)
    returns (o: Instance)
    ensures o.Abort? <==> !(IsString(ArgAt(args, 0)) && (t == Create && |args| > 1 ==> IsObject(args[1])))
    ensures !IsString(ArgAt(args, 0)) ==> o == Abort
    ensures o.Constructed? && t == Create ==>
      o.action == NewZone(args[0].s, if |args| > 1 then Flattened(settingsOf(args[1])) else "")
    ensures o.Constructed? && t == Get ==> o.action == ExistingZone(args[0].s)
  {
    var argv := BuildConstructorArgs(t, args);
    assert ArgAt(argv, 0) == Number(Tag(t) as int);
    Uint32RoundTrip(Tag(t));
    assert ArgAt(argv, 1) == ArgAt(args, 0);
    var maybe := NewCallback(true, argv, settingsOf);
    o := if maybe.Success? then Constructed(maybe.value) else Abort;
  }
}
