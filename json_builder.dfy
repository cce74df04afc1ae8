/** The JSON document builder (`json::Builder`) and the context types that
    narrow, call by call, which operations may follow which.

    The builder keeps four fields: the root node, a stack of pointers to the
    arrays and maps still open inside the root, an optional pending map key and
    an "empty" flag. Here a pointer into the root is a path from the root (see
    module Json), and writing through a pointer rebuilds the root along that
    path. Every check that can throw `std::logic_error` runs before the first
    field is written, so a call that throws leaves the builder as it was. */
module JsonBuilder {
  import opened Wrappers
  import opened Json

  /** The `std::logic_error`s the builder throws, one per message. */
  datatype LogicError =
    | ObjectComplete   // "object complite": nothing is open to receive the call
    | NotKeyForValue   // "Not key for value": a map is open and no key is pending
    | NotEndArray      // "Its not end Array"
    | NotEndDict       // "Its not end Dict"
    | InvalidKey       // "Invalid Key"
    | InvalidValue     // "Invalid Value"
    | NotFinished      // "Builder is empty or Array/Dict not end"

  /** The builder's fields: `root_`, `nodes_stack_`, `last_key_`, `is_empty_`. */
  datatype State = State(root: Node, stack: seq<Path>, lastKey: Option<string>, isEmpty: bool)

  /** A builder as constructed: a null root, nothing open, no key, empty. */
  function Fresh(): State {
    State(Null, [], None, true)
  }

  function Top(s: State): Path
    requires s.stack != []
  {
    s.stack[|s.stack| - 1]
  }

  /** The invariant of the fields: while the builder is empty nothing else is
      set; each stack entry points one step below the previous one, the first
      at the root, and the last one points to a node of the root. */
  ghost predicate WellFormed(s: State) {
    && (s.isEmpty ==> s.root == Null && s.stack == [] && s.lastKey == None)
    && (s.stack != [] ==>
          && !s.isEmpty
          && |Top(s)| == |s.stack| - 1
          && At(s.root, Top(s)).Some?
          && forall i | 0 <= i < |s.stack| :: s.stack[i] == Top(s)[..i])
  }

  /** The node the last stack entry points to. */
  function TopNode(s: State): Node
    requires WellFormed(s) && s.stack != []
  {
    At(s.root, Top(s)).value
  }

  /** Insertion into a map that keeps an existing entry (`insert` on the map). */
  function Insert(m: map<string, Node>, k: string, v: Node): (r: map<string, Node>)
    ensures k in r && r[k] == (if k in m then m[k] else v)
    ensures r.Keys == m.Keys + {k}
    ensures forall j | j in m && j != k :: r[j] == m[j]
  {
    if k in m then m else m[k := v]
  }

  /** Pushing a pointer to a node one step below the top keeps the invariant. */
  lemma PushKeepsWellFormed(s: State, root': Node, st: Step, lastKey': Option<string>)
    requires WellFormed(s) && s.stack != []
    requires At(root', Top(s) + [st]).Some?
    ensures WellFormed(State(root', s.stack + [Top(s) + [st]], lastKey', false))
  {
    var t := State(root', s.stack + [Top(s) + [st]], lastKey', false);
    assert Top(t) == Top(s) + [st];
    forall i | 0 <= i < |t.stack|
      ensures t.stack[i] == Top(t)[..i]
    {
      if i < |s.stack| {
        assert Top(s)[..i] == (Top(s) + [st])[..i];
      }
    }
  }

  /** Popping the top pointer keeps the invariant. */
  lemma PopKeepsWellFormed(s: State)
    requires WellFormed(s) && s.stack != []
    ensures WellFormed(s.(stack := s.stack[..|s.stack| - 1]))
  {
    var t := s.(stack := s.stack[..|s.stack| - 1]);
    if t.stack != [] {
      var k := |t.stack| - 1;
      assert Top(t) == Top(s)[..k];
      AtPrefix(s.root, Top(s), k);
      forall i | 0 <= i < |t.stack|
        ensures t.stack[i] == Top(t)[..i]
      {
        assert Top(s)[..i] == Top(s)[..k][..i];
      }
    }
  }

  /** Writing a new node of the same kind at the top keeps the invariant. */
  lemma RewriteTopKeepsWellFormed(s: State, c: Node, lastKey': Option<string>)
    requires WellFormed(s) && s.stack != []
    ensures WellFormed(State(Put(s.root, Top(s), c), s.stack, lastKey', false))
  {
    AtPut(s.root, Top(s), c);
  }

  /** `StartArray` (`empty` an empty array) and `StartDict` (`empty` an empty
      map): open a new composite as the root, as the next element of the open
      array, or under the pending key of the open map, and push a pointer to it.
      Under a key the map already has, `insert` keeps the old value and the
      pointer pushed is to that old value, whatever its kind. When the top is
      not an array or a map (possible only after such a duplicate key) the call
      does nothing. */
  function Open(s: State, empty: Node): (r: Result<State, LogicError>)
    requires WellFormed(s)
    ensures r.Ok? ==> WellFormed(r.value)
  {
    if s.isEmpty then
      Ok(State(empty, [[]], s.lastKey, false))
    else if s.stack == [] then
      Err(ObjectComplete)
    else
      var top, t := Top(s), TopNode(s);
      if t.Array? then
        var t' := Array(t.items + [empty]);
        AtPut(s.root, top, t');
        AtConcat(Put(s.root, top, t'), top, [Index(|t.items|)]);
        PushKeepsWellFormed(s, Put(s.root, top, t'), Index(|t.items|), s.lastKey);
        Ok(State(Put(s.root, top, t'), s.stack + [top + [Index(|t.items|)]], s.lastKey, false))
      else if t.Dict? then
        if s.lastKey.None? then
          Err(NotKeyForValue)
        else
          var k := s.lastKey.value;
          var t' := Dict(Insert(t.entries, k, empty));
          AtPut(s.root, top, t');
          AtConcat(Put(s.root, top, t'), top, [Field(k)]);
          PushKeepsWellFormed(s, Put(s.root, top, t'), Field(k), None);
          Ok(State(Put(s.root, top, t'), s.stack + [top + [Field(k)]], None, false))
      else
        Ok(s)
  }

  /** `EndArray` (`isArray` true) and `EndDict` (`isArray` false): pop the top
      pointer if it points to a composite of that kind. Neither looks at nor
      clears the pending key. */
  function Close(s: State, isArray: bool): (r: Result<State, LogicError>)
    requires WellFormed(s)
    ensures r.Ok? ==> WellFormed(r.value)
  {
    if s.stack == [] then
      Err(ObjectComplete)
    else if isArray && !TopNode(s).Array? then
      Err(NotEndArray)
    else if !isArray && !TopNode(s).Dict? then
      Err(NotEndDict)
    else
      PopKeepsWellFormed(s);
      Ok(s.(stack := s.stack[..|s.stack| - 1]))
  }

  /** `Key`: stake a key in the open map, which must not have one pending. */
  function SetKey(s: State, k: string): (r: Result<State, LogicError>)
    requires WellFormed(s)
    ensures r.Ok? ==> WellFormed(r.value)
  {
    if s.stack == [] then
      Err(ObjectComplete)
    else if !TopNode(s).Dict? || s.lastKey.Some? then
      Err(InvalidKey)
    else
      Ok(s.(lastKey := Some(k)))
  }

  /** `Value`: make `v` (a scalar or a whole array or map) the root, the next
      element of the open array, or the value under the pending key. */
  function AddValue(s: State, v: Node): (r: Result<State, LogicError>)
    requires WellFormed(s)
    ensures r.Ok? ==> WellFormed(r.value)
  {
    if s.isEmpty then
      Ok(s.(root := v, isEmpty := false))
    else if s.stack == [] then
      Err(ObjectComplete)
    else
      var top, t := Top(s), TopNode(s);
      if t.Array? then
        RewriteTopKeepsWellFormed(s, Array(t.items + [v]), s.lastKey);
        Ok(State(Put(s.root, top, Array(t.items + [v])), s.stack, s.lastKey, false))
      else if t.Dict? then
        if s.lastKey.None? then
          Err(NotKeyForValue)
        else
          var t' := Dict(Insert(t.entries, s.lastKey.value, v));
          RewriteTopKeepsWellFormed(s, t', None);
          Ok(State(Put(s.root, top, t'), s.stack, None, false))
      else
        Err(InvalidValue)
  }

  /** The builder's calls other than `Build`. */
  datatype Op = StartArray | EndArray | StartDict | EndDict | Key(key: string) | Value(value: Node)

  /** What one call does to the builder: its new fields, or the error it throws. */
  function Apply(s: State, op: Op): (r: Result<State, LogicError>)
    requires WellFormed(s)
    ensures r.Ok? ==> WellFormed(r.value)
  {
    match op
    case StartArray => Open(s, Array([]))
    case StartDict => Open(s, Dict(map[]))
    case EndArray => Close(s, true)
    case EndDict => Close(s, false)
    case Key(k) => SetKey(s, k)
    case Value(v) => AddValue(s, v)
  }

  /** `Build`: the root, once something was started and everything is closed. */
  function Built(s: State): Result<Node, LogicError> {
    if s.isEmpty || s.stack != [] then Err(NotFinished) else Ok(s.root)
  }

  /** A sequence of calls, stopping at the first that throws. */
  function Run(s: State, ops: seq<Op>): (r: Result<State, LogicError>)
    requires WellFormed(s)
    ensures r.Ok? ==> WellFormed(r.value)
    decreases |ops|
  {
    if ops == [] then Ok(s)
    else match Apply(s, ops[0])
      case Err(e) => Err(e)
      case Ok(t) => Run(t, ops[1..])
  }

  /** The static types the builder's calls return: `Builder&` and the three
      context classes, which hold only a reference to the builder. */
  datatype Context = BuilderRef | ArrayItemContext | ValueDictItemContext | KeyItemContext

  /** The calls each type makes public. */
  predicate Exposes(c: Context, op: Op) {
    match c
    case BuilderRef => true
    case ArrayItemContext => op.EndArray? || op.StartArray? || op.StartDict? || op.Value?
    case ValueDictItemContext => op.Key? || op.EndDict?
    case KeyItemContext => op.StartArray? || op.StartDict? || op.Value?
  }

  /** The type a call through `c` returns. `Value` returns `Builder&` on the
      builder, an `ArrayItemContext` on an `ArrayItemContext`, and a
      `ValueDictItemContext` on the other contexts. */
  function Returned(c: Context, op: Op): Context {
    match op
    case StartArray => ArrayItemContext
    case StartDict => ValueDictItemContext
    case EndArray => BuilderRef
    case EndDict => BuilderRef
    case Key(_) => KeyItemContext
    case Value(_) =>
      if c == BuilderRef then BuilderRef
      else if c == ArrayItemContext then ArrayItemContext
      else ValueDictItemContext
  }

  /** `before --op--> after` returned `r`, whose context on success is `ctx`. */
  ghost predicate Performed(before: State, op: Op, after: State, r: Result<Context, LogicError>, ctx: Context)
    requires WellFormed(before)
  {
    match Apply(before, op)
    case Ok(s) => after == s && r == Ok(ctx)
    case Err(e) => after == before && r == Err(e)
  }

  class Builder {
    var root: Node
    var stack: seq<Path>
    var lastKey: Option<string>
    var isEmpty: bool

    function Current(): State
      reads this
    {
      State(root, stack, lastKey, isEmpty)
    }

    ghost predicate Valid()
      reads this
    {
      WellFormed(Current())
    }

    constructor ()
      ensures Valid() && Current() == Fresh()
    {
      root, stack, lastKey, isEmpty := Null, [], None, true;
    }

    method Open(empty: Node, op: Op) returns (r: Result<Context, LogicError>)
      requires Valid()
      requires (op == Op.StartArray && empty == Array([])) || (op == Op.StartDict && empty == Dict(map[]))
      modifies this
      ensures Valid()
      ensures Performed(old(Current()), op, Current(), r, Returned(BuilderRef, op))
    {
      ghost var expected := Apply(Current(), op);
      if isEmpty {
        root := empty;
        stack := stack + [[]];
        isEmpty := false;
      } else {
        if stack == [] {
          return Err(ObjectComplete);
        }
        var top := stack[|stack| - 1];
        var node := At(root, top).value;
        if node.Array? {
          root := Put(root, top, Array(node.items + [empty]));
          stack := stack + [top + [Index(|node.items|)]];
          isEmpty := false;
        } else if node.Dict? {
          if lastKey == None {
            return Err(NotKeyForValue);
          }
          var key := lastKey.value;
          root := Put(root, top, Dict(Insert(node.entries, key, empty)));
          stack := stack + [top + [Field(key)]];
          lastKey := None;
          isEmpty := false;
        }
      }
      r := Ok(Returned(BuilderRef, op));
    }

    method StartArray() returns (r: Result<Context, LogicError>)
      requires Valid()
      modifies this
      ensures Valid()
      ensures Performed(old(Current()), Op.StartArray, Current(), r, ArrayItemContext)
    {
      r := Open(Array([]), Op.StartArray);
    }

    method StartDict() returns (r: Result<Context, LogicError>)
      requires Valid()
      modifies this
      ensures Valid()
      ensures Performed(old(Current()), Op.StartDict, Current(), r, ValueDictItemContext)
    {
      r := Open(Dict(map[]), Op.StartDict);
    }

    method EndArray() returns (r: Result<Context, LogicError>)
      requires Valid()
      modifies this
      ensures Valid()
      ensures Performed(old(Current()), Op.EndArray, Current(), r, BuilderRef)
    {
      ghost var expected := Apply(Current(), Op.EndArray);
      if stack == [] {
        return Err(ObjectComplete);
      }
      if !At(root, stack[|stack| - 1]).value.Array? {
        return Err(NotEndArray);
      }
      stack := stack[..|stack| - 1];
      r := Ok(BuilderRef);
    }

    method EndDict() returns (r: Result<Context, LogicError>)
      requires Valid()
      modifies this
      ensures Valid()
      ensures Performed(old(Current()), Op.EndDict, Current(), r, BuilderRef)
    {
      ghost var expected := Apply(Current(), Op.EndDict);
      if stack == [] {
        return Err(ObjectComplete);
      }
      if !At(root, stack[|stack| - 1]).value.Dict? {
        return Err(NotEndDict);
      }
      stack := stack[..|stack| - 1];
      r := Ok(BuilderRef);
    }

    method Key(k: string) returns (r: Result<Context, LogicError>)
      requires Valid()
      modifies this
      ensures Valid()
      ensures Performed(old(Current()), Op.Key(k), Current(), r, KeyItemContext)
    {
      ghost var expected := Apply(Current(), Op.Key(k));
      if stack == [] {
        return Err(ObjectComplete);
      }
      if !At(root, stack[|stack| - 1]).value.Dict? || lastKey != None {
        return Err(InvalidKey);
      }
      lastKey := Some(k);
      r := Ok(KeyItemContext);
    }

    method Value(v: Node) returns (r: Result<Context, LogicError>)
      requires Valid()
      modifies this
      ensures Valid()
      ensures Performed(old(Current()), Op.Value(v), Current(), r, BuilderRef)
    {
      ghost var expected := Apply(Current(), Op.Value(v));
      if isEmpty {
        root := v;
        isEmpty := false;
      } else {
        if stack == [] {
          return Err(ObjectComplete);
        }
        var top := stack[|stack| - 1];
        var node := At(root, top).value;
        if node.Array? {
          root := Put(root, top, Array(node.items + [v]));
          isEmpty := false;
        } else if node.Dict? {
          if lastKey == None {
            return Err(NotKeyForValue);
          }
          root := Put(root, top, Dict(Insert(node.entries, lastKey.value, v)));
          lastKey := None;
          isEmpty := false;
        } else {
          return Err(InvalidValue);
        }
      }
      r := Ok(BuilderRef);
    }

    method Build() returns (r: Result<Node, LogicError>)
      requires Valid()
      ensures r == Built(Current())
      ensures r.Ok? <==> !isEmpty && stack == []
      ensures r.Ok? ==> r.value == root
    {
      if isEmpty || stack != [] {
        return Err(NotFinished);
      }
      r := Ok(root);
    }

    /** A call made through a context object: the context forwards it to the
        builder and returns the type `Returned` names. */
    method Through(c: Context, op: Op) returns (r: Result<Context, LogicError>)
      requires Valid() && Exposes(c, op)
      modifies this
      ensures Valid()
      ensures Performed(old(Current()), op, Current(), r, Returned(c, op))
    {
      match op
      case StartArray => r := StartArray();
      case StartDict => r := StartDict();
      case EndArray => r := EndArray();
      case EndDict => r := EndDict();
      case Key(k) => r := Key(k);
      case Value(v) => r := Value(v);
      if r.Ok? {
        r := Ok(Returned(c, op));
      }
    }
  }

  // ----- What each call does -----

  /** On a fresh builder `Value` installs its argument as the root, and
      `StartArray`/`StartDict` install an empty composite as the root and push a
      pointer to it; each clears the empty flag. */
  lemma FreshInstallsRoot(v: Node)
    ensures Apply(Fresh(), Value(v)) == Ok(State(v, [], None, false))
    ensures Apply(Fresh(), StartArray) == Ok(State(Array([]), [[]], None, false))
    ensures Apply(Fresh(), StartDict) == Ok(State(Dict(map[]), [[]], None, false))
  {
  }

  /** Once the root is complete (not empty, nothing open) every call throws. */
  lemma CompleteRejectsEveryCall(s: State, op: Op)
    requires WellFormed(s) && !s.isEmpty && s.stack == []
    ensures Apply(s, op) == Err(ObjectComplete)
    ensures Built(s) == Ok(s.root)
  {
  }

  /** `Key` succeeds exactly when the top is an open map with no pending key,
      and then only stakes the key. */
  lemma KeyExactly(s: State, k: string)
    requires WellFormed(s)
    ensures Apply(s, Key(k)).Ok? <==> s.stack != [] && TopNode(s).Dict? && s.lastKey.None?
    ensures Apply(s, Key(k)).Ok? ==> Apply(s, Key(k)).value == s.(lastKey := Some(k))
  {
  }

  /** With a map on top, `Value`, `StartArray` and `StartDict` throw when no key
      is pending; otherwise they insert under the key (keeping an entry already
      there) and clear it. `Start*` also pushes a pointer to the entry. */
  lemma MapOnTop(s: State, op: Op)
    requires WellFormed(s) && s.stack != [] && TopNode(s).Dict?
    requires op.Value? || op.StartArray? || op.StartDict?
    ensures s.lastKey.None? <==> Apply(s, op) == Err(NotKeyForValue)
    ensures s.lastKey.Some? ==>
      var k, v := s.lastKey.value, Inserted(op);
      var t := Apply(s, op).value;
      && t.root == Put(s.root, Top(s), Dict(Insert(TopNode(s).entries, k, v)))
      && t.lastKey == None
      && t.stack == s.stack + (if op.Value? then [] else [Top(s) + [Field(k)]])
  {
  }

  /** The node a `Value`, `StartArray` or `StartDict` call adds. */
  function Inserted(op: Op): Node
    requires op.Value? || op.StartArray? || op.StartDict?
  {
    match op
    case Value(v) => v
    case StartArray => Array([])
    case StartDict => Dict(map[])
  }

  /** With an array on top, `Value`, `StartArray` and `StartDict` append exactly
      one element and keep the earlier ones; `Start*` also pushes a pointer to
      the new element. The pending key is not touched. */
  lemma ArrayOnTop(s: State, op: Op)
    requires WellFormed(s) && s.stack != [] && TopNode(s).Array?
    requires op.Value? || op.StartArray? || op.StartDict?
    ensures Apply(s, op).Ok?
    ensures var t, n := Apply(s, op).value, |TopNode(s).items|;
      && t.root == Put(s.root, Top(s), Array(TopNode(s).items + [Inserted(op)]))
      && t.lastKey == s.lastKey
      && t.stack == s.stack + (if op.Value? then [] else [Top(s) + [Index(n)]])
  {
  }

  /** `EndArray` and `EndDict` throw on an empty stack or on the other kind of
      composite; otherwise they pop one pointer and change nothing else. */
  lemma EndExactly(s: State, isArray: bool)
    requires WellFormed(s)
    ensures var r := Apply(s, if isArray then EndArray else EndDict);
      && (s.stack == [] ==> r == Err(ObjectComplete))
      && (s.stack != [] && isArray && !TopNode(s).Array? ==> r == Err(NotEndArray))
      && (s.stack != [] && !isArray && !TopNode(s).Dict? ==> r == Err(NotEndDict))
      && (r.Ok? <==> s.stack != [] && (if isArray then TopNode(s).Array? else TopNode(s).Dict?))
      && (r.Ok? ==> r.value == s.(stack := s.stack[..|s.stack| - 1]))
  {
  }

  /** `Build` throws while the builder is empty or anything is open, and
      otherwise returns the root as it stands. */
  lemma BuildExactly(s: State)
    ensures Built(s).Ok? <==> !s.isEmpty && s.stack == []
    ensures Built(s).Ok? ==> Built(s).value == s.root
  {
  }

  /** A call that throws leaves no trace: a run stops at the first error. */
  lemma {:induction false} RunConcat(s: State, a: seq<Op>, b: seq<Op>)
    requires WellFormed(s)
    ensures Run(s, a + b) == match Run(s, a)
                             case Err(e) => Err(e)
                             case Ok(t) => Run(t, b)
    decreases |a|
  {
    if a == [] {
      assert a + b == b;
    } else {
      assert (a + b)[0] == a[0] && (a + b)[1..] == a[1..] + b;
      match Apply(s, a[0])
      case Err(e) =>
      case Ok(t) => RunConcat(t, a[1..], b);
    }
  }

  /** `EndDict` does not clear a pending key: after `StartArray, StartDict,
      Key("a"), EndDict` the key is still pending, and the next map opened in
      the array takes a value under it without a `Key` call. */
  lemma EndDictKeepsPendingKey()
    ensures var ops := [StartArray, StartDict, Key("a"), EndDict];
      && Run(Fresh(), ops).Ok?
      && Run(Fresh(), ops).value.lastKey == Some("a")
      && Run(Fresh(), ops + [StartDict, Value(Int(2)), EndDict, EndArray]).Ok?
      && Built(Run(Fresh(), ops + [StartDict, Value(Int(2)), EndDict, EndArray]).value)
         == Ok(Array([Dict(map[]), Dict(map["a" := Int(2)])]))
  {
    QuirkOpenAndClose();
    QuirkReopen();
    RunConcat(Fresh(), [StartArray, StartDict, Key("a"), EndDict], [StartDict, Value(Int(2)), EndDict, EndArray]);
  }

  /** The state the quirk leaves: an array holding an empty map, and key "a"
      still pending. */
  function QuirkState(): State {
    State(Array([Dict(map[])]), [[]], Some("a"), false)
  }

  lemma QuirkOpenAndClose()
    ensures Run(Fresh(), [StartArray, StartDict, Key("a"), EndDict]) == Ok(QuirkState())
  {
    var s1 := State(Array([]), [[]], None, false);
    assert Apply(Fresh(), StartArray) == Ok(s1);
    assert Top(s1) == [] && TopNode(s1) == Array([]);
    var s2 := State(Array([Dict(map[])]), [[], [Index(0)]], None, false);
    assert [] + [Dict(map[])] == [Dict(map[])];
    assert Put(s1.root, [], Array([Dict(map[])])) == Array([Dict(map[])]);
    assert [] + [Index(0)] == [Index(0)];
    assert [[]] + [[Index(0)]] == [[], [Index(0)]];
    assert Apply(s1, StartDict) == Ok(s2);
    var s3 := s2.(lastKey := Some("a"));
    assert At(s2.root, [Index(0)]) == Some(Dict(map[]));
    assert Apply(s2, Key("a")) == Ok(s3);
    var s4 := QuirkState();
    assert Apply(s3, EndDict) == Ok(s4);
    assert Run(s4, []) == Ok(s4);
    assert Run(s3, [EndDict]) == Ok(s4);
    assert Run(s2, [Key("a"), EndDict]) == Ok(s4);
    assert Run(s1, [StartDict, Key("a"), EndDict]) == Ok(s4);
  }

  lemma QuirkReopen()
    ensures Run(QuirkState(), [StartDict, Value(Int(2)), EndDict, EndArray]) ==
      Ok(State(Array([Dict(map[]), Dict(map["a" := Int(2)])]), [], None, false))
  {
    var s4 := QuirkState();
    assert Top(s4) == [] && TopNode(s4) == Array([Dict(map[])]);
    var s5 := State(Array([Dict(map[]), Dict(map[])]), [[], [Index(1)]], Some("a"), false);
    assert [Dict(map[])] + [Dict(map[])] == [Dict(map[]), Dict(map[])];
    assert Put(s4.root, [], Array([Dict(map[]), Dict(map[])])) == Array([Dict(map[]), Dict(map[])]);
    assert [] + [Index(1)] == [Index(1)];
    assert [[]] + [[Index(1)]] == [[], [Index(1)]];
    assert Apply(s4, StartDict) == Ok(s5);
    QuirkValue(s5);
  }

  lemma QuirkValue(s5: State)
    requires s5 == State(Array([Dict(map[]), Dict(map[])]), [[], [Index(1)]], Some("a"), false)
    ensures WellFormed(s5)
    ensures Run(s5, [Value(Int(2)), EndDict, EndArray]) ==
      Ok(State(Array([Dict(map[]), Dict(map["a" := Int(2)])]), [], None, false))
  {
    assert At(s5.root, [Index(1)]) == Some(Dict(map[]));
    assert forall i | 0 <= i < |s5.stack| :: s5.stack[i] == Top(s5)[..i];
    var s6 := State(Array([Dict(map[]), Dict(map["a" := Int(2)])]), [[], [Index(1)]], None, false);
    assert Put(s5.root, [Index(1)], Dict(map["a" := Int(2)])) == s6.root;
    assert Apply(s5, Value(Int(2))) == Ok(s6);
    var s7 := s6.(stack := [[]]);
    assert At(s6.root, [Index(1)]) == Some(Dict(map["a" := Int(2)]));
    assert Top(s6) == [Index(1)] && TopNode(s6).Dict?;
    assert s6.stack[..1] == [[]];
    assert Apply(s6, EndDict) == Ok(s7);
    var s8 := s6.(stack := []);
    assert Apply(s7, EndArray) == Ok(s8);
    assert Run(s8, []) == Ok(s8);
    assert Run(s7, [EndArray]) == Ok(s8);
    assert Run(s6, [EndDict, EndArray]) == Ok(s8);
  }

  // ----- The context types -----

  /** The states in which the narrowed interface cannot go wrong: the top, if
      any, is an array or a map, and a pending key belongs to the map on top,
      which has no entry under it yet. */
  ghost predicate Disciplined(s: State)
    requires WellFormed(s)
  {
    && (s.stack != [] ==> TopNode(s).IsComposite())
    && (s.lastKey.Some? ==> s.stack != [] && TopNode(s).Dict? && s.lastKey.value !in TopNode(s).entries)
  }

  /** The states a call returning `c` leaves behind, as long as the builder is
      disciplined. */
  ghost predicate Fits(c: Context, s: State)
    requires WellFormed(s)
  {
    Disciplined(s) && Shaped(c, s)
  }

  /** What the type `c` takes for granted about the top of the builder. */
  ghost predicate Shaped(c: Context, s: State)
    requires WellFormed(s)
  {
    match c
    case BuilderRef => true
    case ArrayItemContext => s.stack != [] && TopNode(s).Array?
    case ValueDictItemContext => s.stack != [] && TopNode(s).Dict? && s.lastKey.None?
    case KeyItemContext => s.stack != [] && TopNode(s).Dict? && s.lastKey.Some?
  }

  /** Every call a context type exposes passes the builder's checks in the
      states that context type is returned in. */
  lemma ContextCallsSucceed(c: Context, s: State, op: Op)
    requires WellFormed(s) && Fits(c, s)
    requires c != BuilderRef && Exposes(c, op)
    ensures Apply(s, op).Ok?
  {
  }

  /** The type a call returns fits the state the call leaves, unless the call
      stakes a key the map already has or ends a map with a key pending (the
      two ways out of the disciplined states). Ending a map with a key pending
      takes `Builder&`, since `KeyItemContext` has no `EndDict`; a key the map
      already has is reachable through `ValueDictItemContext::Key`, as
      `DuplicateKeyThroughContexts` shows. */
  lemma ContextReturnedFits(c: Context, s: State, op: Op)
    requires WellFormed(s) && Fits(c, s) && Exposes(c, op)
    requires Apply(s, op).Ok?
    requires op.Key? ==> op.key !in TopNode(s).entries
    requires op.EndDict? ==> s.lastKey.None?
    ensures Fits(Returned(c, op), Apply(s, op).value)
  {
    if op.StartArray? || op.StartDict? {
      OpenFits(c, s, op);
    } else if op.EndArray? || op.EndDict? {
      CloseFits(c, s, op);
    } else if op.Value? {
      ValueFits(c, s, op);
    }
  }

  lemma OpenFits(c: Context, s: State, op: Op)
    requires WellFormed(s) && Fits(c, s) && Exposes(c, op)
    requires (op.StartArray? || op.StartDict?) && Apply(s, op).Ok?
    ensures Fits(Returned(c, op), Apply(s, op).value)
  {
    if !s.isEmpty {
      var empty := if op.StartArray? then Array([]) else Dict(map[]);
      var top, n := Top(s), TopNode(s);
      if n.Array? {
        OpenedAt(s.root, top, Array(n.items + [empty]), Index(|n.items|), empty);
      } else {
        var k := s.lastKey.value;
        OpenedAt(s.root, top, Dict(n.entries[k := empty]), Field(k), empty);
      }
    }
  }

  lemma CloseFits(c: Context, s: State, op: Op)
    requires WellFormed(s) && Fits(c, s) && Exposes(c, op)
    requires (op.EndArray? || op.EndDict?) && Apply(s, op).Ok?
    requires op.EndDict? ==> s.lastKey.None?
    ensures Fits(Returned(c, op), Apply(s, op).value)
  {
    var t := Apply(s, op).value;
    if t.stack != [] {
      AtPrefix(s.root, Top(s), |t.stack| - 1);
    }
  }

  lemma ValueFits(c: Context, s: State, op: Op)
    requires WellFormed(s) && Fits(c, s) && Exposes(c, op)
    requires op.Value? && Apply(s, op).Ok?
    ensures Fits(Returned(c, op), Apply(s, op).value)
  {
    if !s.isEmpty {
      var top, n := Top(s), TopNode(s);
      if n.Array? {
        AtPut(s.root, top, Array(n.items + [op.value]));
      } else {
        AtPut(s.root, top, Dict(Insert(n.entries, s.lastKey.value, op.value)));
      }
    }
  }

  // ----- A duplicate key through the context types -----

  /** Every call in `ops` is one that the type returned by the call before it
      (`c` for the first) exposes: a chain the compiler accepts. */
  predicate ThroughContexts(c: Context, ops: seq<Op>)
    decreases |ops|
  {
    ops == [] || (Exposes(c, ops[0]) && ThroughContexts(Returned(c, ops[0]), ops[1..]))
  }

  function DuplicateKeyCalls(): seq<Op> {
    [StartDict, Key("a"), Value(Int(1)), Key("a"), StartArray, Value(Int(3))]
  }

  /** The context types let a key the map already has through: each call
      below is exposed by the type the call before it returns, the first five
      pass, and the sixth throws "Invalid Value", because `insert` kept the
      integer under "a" and the array "opened" under it is that integer. */
  lemma DuplicateKeyThroughContexts()
    ensures ThroughContexts(BuilderRef, DuplicateKeyCalls())
    ensures Run(Fresh(), DuplicateKeyCalls()[..5]).Ok?
    ensures Run(Fresh(), DuplicateKeyCalls()) == Err(InvalidValue)
  {
    var ops := DuplicateKeyCalls();
    DuplicateKeyExposed();
    DuplicateKeyFirstFive();
    DuplicateKeyLast();
    RunConcat(Fresh(), ops[..5], ops[5..]);
    assert ops[..5] + ops[5..] == ops;
  }

  /** The top now points at the integer, and `Value` has nowhere to go. */
  lemma DuplicateKeyLast()
    ensures WellFormed(DuplicateKeyState())
    ensures Run(DuplicateKeyState(), DuplicateKeyCalls()[5..]) == Err(InvalidValue)
  {
    var s5 := DuplicateKeyState();
    assert Top(s5) == [Field("a")] && At(s5.root, Top(s5)) == Some(Int(1));
    assert forall i | 0 <= i < |s5.stack| :: s5.stack[i] == Top(s5)[..i];
    assert Apply(s5, Value(Int(3))) == Err(InvalidValue);
    assert DuplicateKeyCalls()[5..] == [Value(Int(3))];
  }

  lemma DuplicateKeyExposed()
    ensures ThroughContexts(BuilderRef, DuplicateKeyCalls())
  {
    var ops := DuplicateKeyCalls();
    assert ThroughContexts(ArrayItemContext, ops[5..]);
    assert ThroughContexts(KeyItemContext, ops[4..]);
    assert ThroughContexts(ValueDictItemContext, ops[3..]);
    assert ThroughContexts(KeyItemContext, ops[2..]);
    assert ThroughContexts(ValueDictItemContext, ops[1..]);
  }

  /** After the first five calls: the map {"a": 1} with a pointer to its
      entry "a" on top. */
  function DuplicateKeyState(): State {
    State(Dict(map["a" := Int(1)]), [[], [Field("a")]], None, false)
  }

  lemma DuplicateKeyFirstFive()
    ensures Run(Fresh(), DuplicateKeyCalls()[..5]) == Ok(DuplicateKeyState())
  {
    var ops := DuplicateKeyCalls();
    var s3 := State(Dict(map["a" := Int(1)]), [[]], None, false);
    DuplicateKeyFirstThree();
    DuplicateKeyAgain(s3);
    assert ops[..5] == ops[..3] + ops[3..5];
    RunConcat(Fresh(), ops[..3], ops[3..5]);
  }

  lemma DuplicateKeyFirstThree()
    ensures Run(Fresh(), DuplicateKeyCalls()[..3]) == Ok(State(Dict(map["a" := Int(1)]), [[]], None, false))
  {
    var s1 := State(Dict(map[]), [[]], None, false);
    assert Apply(Fresh(), StartDict) == Ok(s1);
    var s2 := s1.(lastKey := Some("a"));
    assert Top(s1) == [] && TopNode(s1) == Dict(map[]);
    assert Apply(s1, Key("a")) == Ok(s2);
    var s3 := State(Dict(map["a" := Int(1)]), [[]], None, false);
    assert Insert(map[], "a", Int(1)) == map["a" := Int(1)];
    assert Apply(s2, Value(Int(1))) == Ok(s3);
    assert Run(s3, []) == Ok(s3);
    assert Run(s2, [Value(Int(1))]) == Ok(s3);
    assert Run(s1, [Key("a"), Value(Int(1))]) == Ok(s3);
    assert DuplicateKeyCalls()[..3] == [StartDict, Key("a"), Value(Int(1))];
  }

  /** The second `Key("a")` is accepted, and `StartArray` under it pushes a
      pointer to the integer already there. */
  lemma DuplicateKeyAgain(s3: State)
    requires s3 == State(Dict(map["a" := Int(1)]), [[]], None, false)
    ensures WellFormed(s3)
    ensures Run(s3, DuplicateKeyCalls()[3..5]) == Ok(DuplicateKeyState())
  {
    var d := Dict(map["a" := Int(1)]);
    assert Top(s3) == [] && TopNode(s3) == d;
    var s4 := s3.(lastKey := Some("a"));
    assert Apply(s3, Key("a")) == Ok(s4);
    var s5 := DuplicateKeyState();
    assert Insert(d.entries, "a", Array([])) == d.entries;
    assert [] + [Field("a")] == [Field("a")];
    assert [[]] + [[Field("a")]] == [[], [Field("a")]];
    assert Apply(s4, StartArray) == Ok(s5);
    assert Run(s5, []) == Ok(s5);
    assert Run(s4, [StartArray]) == Ok(s5);
    assert DuplicateKeyCalls()[3..5] == [Key("a"), StartArray];
  }

  /** The pending key's entry taken out of the map on top, so that what is
      put under that key next replaces it. */
  function Evict(s: State): (r: State)
    requires WellFormed(s)
    ensures WellFormed(r) && r.stack == s.stack && r.lastKey == s.lastKey
    ensures s.stack != [] && TopNode(s).Dict? && s.lastKey.Some? ==>
      TopNode(r) == Dict(TopNode(s).entries - {s.lastKey.value})
    ensures !(s.stack != [] && TopNode(s).Dict? && s.lastKey.Some?) ==> r == s
  {
    if s.stack != [] && TopNode(s).Dict? && s.lastKey.Some? then
      var t' := Dict(TopNode(s).entries - {s.lastKey.value});
      RewriteTopKeepsWellFormed(s, t', s.lastKey);
      AtPut(s.root, Top(s), t');
      s.(root := Put(s.root, Top(s), t'))
    else
      s
  }

  /** The calls with a later value under a key replacing the earlier one: a
      call that puts something under the pending key first evicts the entry
      already there. */
  function ApplyLastWins(s: State, op: Op): (r: Result<State, LogicError>)
    requires WellFormed(s)
    ensures r.Ok? ==> WellFormed(r.value)
  {
    if op.StartArray? || op.StartDict? || op.Value? then Apply(Evict(s), op) else Apply(s, op)
  }

  /** A value under a key the map already has replaces the old one. */
  lemma LastWinsReplaces(s: State, v: Node)
    requires WellFormed(s) && s.stack != [] && TopNode(s).Dict? && s.lastKey.Some?
    ensures ApplyLastWins(s, Value(v)).Ok?
    ensures TopNode(ApplyLastWins(s, Value(v)).value) == Dict(TopNode(s).entries[s.lastKey.value := v])
  {
    var e, k := Evict(s), s.lastKey.value;
    var m := TopNode(s).entries;
    assert Insert(m - {k}, k, v) == m[k := v];
    AtPut(e.root, Top(e), Dict(m[k := v]));
  }

  /** `Fits` without the demand that the pending key be new to the map. */
  ghost predicate FitsLastWins(c: Context, s: State)
    requires WellFormed(s)
  {
    && (s.stack != [] ==> TopNode(s).IsComposite())
    && (s.lastKey.Some? ==> s.stack != [] && TopNode(s).Dict?)
    && Shaped(c, s)
  }

  /** With a later value under a key replacing the earlier one, every call a
      context type exposes passes and the type it returns fits the state it
      leaves, duplicate keys included. */
  lemma LastWinsContextsSucceed(c: Context, s: State, op: Op)
    requires WellFormed(s) && FitsLastWins(c, s)
    requires c != BuilderRef && Exposes(c, op)
    ensures ApplyLastWins(s, op).Ok?
    ensures FitsLastWins(Returned(c, op), ApplyLastWins(s, op).value)
  {
    if !op.Key? {
      var e := if op.EndArray? || op.EndDict? then s else Evict(s);
      assert Fits(c, e);
      ContextCallsSucceed(c, e, op);
      ContextReturnedFits(c, e, op);
    }
  }

  // ----- Round trip: the calls that spell out a tree build that tree -----

  /** Some key of a non-empty map: the next entry to spell out. */
  ghost function PickKey(m: map<string, Node>): (k: string)
    requires m != map[]
    ensures k in m
  {
    var k :| k in m; k
  }

  /** The calls that build `n`: a scalar is one `Value`, an array or a map is
      opened, filled element by element (key by key) and closed. */
  ghost function Emit(n: Node): seq<Op>
    decreases n
  {
    match n
    case Array(items) => [StartArray] + EmitItems(items, n) + [EndArray]
    case Dict(m) => [StartDict] + EmitEntries(m, n) + [EndDict]
    case _ => [Value(n)]
  }

  ghost function EmitItems(xs: seq<Node>, parent: Node): seq<Op>
    requires parent.Array? && forall x | x in xs :: x in parent.items
    decreases parent, |xs|
  {
    if xs == [] then []
    else assert xs[|xs| - 1] in xs; EmitItems(xs[..|xs| - 1], parent) + Emit(xs[|xs| - 1])
  }

  ghost function EmitEntries(m: map<string, Node>, parent: Node): seq<Op>
    requires parent.Dict? && forall k | k in m :: k in parent.entries && m[k] == parent.entries[k]
    decreases parent, |m|
  {
    if m == map[] then []
    else var k := PickKey(m); EmitEntries(m - {k}, parent) + [Key(k)] + Emit(m[k])
  }

  /** After writing `t` (whose child at `st` is `c`) at `top`, `top + [st]`
      leads to `c`. */
  lemma OpenedAt(root: Node, top: Path, t: Node, st: Step, c: Node)
    requires At(root, top).Some? && Child(t, st) == Some(c)
    ensures At(Put(root, top, t), top + [st]) == Some(c)
  {
    AtPut(root, top, t);
    AtConcat(Put(root, top, t), top, [st]);
  }

  /** Writing `c` one step below `top` after writing `t` at `top` is writing,
      at `top`, `t` with that child replaced. */
  lemma ClosedAt(root: Node, top: Path, t: Node, st: Step, c: Node)
    requires At(root, top).Some? && Child(t, st).Some?
    ensures At(Put(root, top, t), top + [st]).Some?
    ensures Put(Put(root, top, t), top + [st], c) == Put(root, top, Replace(t, st, c))
  {
    OpenedAt(root, top, t, st, Child(t, st).value);
    PutConcat(Put(root, top, t), top, [st], c);
    AtPut(root, top, t);
    PutPut(root, top, t, Replace(t, st, c));
  }

  /** The states in which the next node spelled out has a place to go: an
      array on top with no key pending, or a map on top with a pending key it
      has no entry under. */
  ghost predicate Ready(s: State)
    requires WellFormed(s)
  {
    && s.stack != []
    && ((TopNode(s).Array? && s.lastKey.None?) ||
        (TopNode(s).Dict? && s.lastKey.Some? && s.lastKey.value !in TopNode(s).entries))
  }

  /** Where the next node goes in a ready state. */
  ghost function Slot(s: State): Step
    requires WellFormed(s) && Ready(s)
  {
    if TopNode(s).Array? then Index(|TopNode(s).items|) else Field(s.lastKey.value)
  }

  /** The top node of a ready state once `n` is in its slot. */
  ghost function Slotted(s: State, n: Node): (r: Node)
    requires WellFormed(s) && Ready(s)
    ensures Child(r, Slot(s)) == Some(n)
  {
    if TopNode(s).Array? then Array(TopNode(s).items + [n])
    else Dict(TopNode(s).entries[s.lastKey.value := n])
  }

  lemma ReplaceSlotted(s: State, a: Node, b: Node)
    requires WellFormed(s) && Ready(s)
    ensures Replace(Slotted(s, a), Slot(s), b) == Slotted(s, b)
  {
    if TopNode(s).Array? {
      var items := TopNode(s).items;
      assert (items + [a])[|items| := b] == items + [b];
    }
  }

  /** In a ready state, `StartArray`/`StartDict` puts the empty composite in
      the slot and pushes a pointer to it. */
  lemma OpenReady(s: State, op: Op)
    requires WellFormed(s) && Ready(s) && (op.StartArray? || op.StartDict?)
    ensures Apply(s, op) ==
      Ok(State(Put(s.root, Top(s), Slotted(s, Inserted(op))), s.stack + [Top(s) + [Slot(s)]], None, false))
    ensures var t := Apply(s, op).value; Top(t) == Top(s) + [Slot(s)] && TopNode(t) == Inserted(op)
  {
    OpenedAt(s.root, Top(s), Slotted(s, Inserted(op)), Slot(s), Inserted(op));
  }

  /** Opening a composite in the slot, filling it to `n` and closing it puts
      `n` in the slot and clears the pending key. */
  lemma OpenFillClose(s: State, n: Node, fill: seq<Op>)
    requires WellFormed(s) && Ready(s) && n.IsComposite()
    requires var t := Apply(s, if n.Array? then StartArray else StartDict);
      t.Ok? && Run(t.value, fill) == Ok(t.value.(root := Put(t.value.root, Top(t.value), n)))
    ensures Run(s, [if n.Array? then StartArray else StartDict] + fill + [if n.Array? then EndArray else EndDict]) ==
      Ok(s.(root := Put(s.root, Top(s), Slotted(s, n)), lastKey := None))
  {
    var open, close := if n.Array? then StartArray else StartDict, if n.Array? then EndArray else EndDict;
    OpenReady(s, open);
    var s1 := Apply(s, open).value;
    var s2 := s1.(root := Put(s1.root, Top(s1), n));
    AtPut(s1.root, Top(s1), n);
    CloseStep(s2, n.Array?);
    assert s2.stack[..|s2.stack| - 1] == s.stack;
    RunConcat(s1, fill, [close]);
    assert Run(s, [open] + (fill + [close])) == Run(s1, fill + [close]);
    assert [open] + fill + [close] == [open] + (fill + [close]);
    ClosedAt(s.root, Top(s), Slotted(s, Inserted(open)), Slot(s), n);
    ReplaceSlotted(s, Inserted(open), n);
  }

  /** Closing with the matching kind of composite on top pops it. */
  lemma CloseStep(s: State, isArray: bool)
    requires WellFormed(s) && s.stack != [] && (if isArray then TopNode(s).Array? else TopNode(s).Dict?)
    ensures Run(s, [if isArray then EndArray else EndDict]) == Ok(s.(stack := s.stack[..|s.stack| - 1]))
  {
    var t := s.(stack := s.stack[..|s.stack| - 1]);
    assert Apply(s, if isArray then EndArray else EndDict) == Ok(t);
    assert Run(t, []) == Ok(t);
  }

  /** Spelling out `n` in a ready state puts `n` in the slot and clears the
      pending key. */
  lemma {:induction false} EmitInto(s: State, n: Node)
    requires WellFormed(s) && Ready(s)
    ensures Run(s, Emit(n)) == Ok(s.(root := Put(s.root, Top(s), Slotted(s, n)), lastKey := None))
    decreases n, 1, 1
  {
    match n
    case Array(_) => EmitArrayInto(s, n);
    case Dict(_) => EmitDictInto(s, n);
    case _ => EmitScalarInto(s, n);
  }

  lemma {:induction false} EmitArrayInto(s: State, n: Node)
    requires WellFormed(s) && Ready(s) && n.Array?
    ensures Run(s, Emit(n)) == Ok(s.(root := Put(s.root, Top(s), Slotted(s, n)), lastKey := None))
    decreases n, 1, 0
  {
    OpenReady(s, StartArray);
    var s1 := Apply(s, StartArray).value;
    EmitItemsInto(s1, n.items, n);
    assert [] + n.items == n.items;
    OpenFillClose(s, n, EmitItems(n.items, n));
  }

  lemma {:induction false} EmitDictInto(s: State, n: Node)
    requires WellFormed(s) && Ready(s) && n.Dict?
    ensures Run(s, Emit(n)) == Ok(s.(root := Put(s.root, Top(s), Slotted(s, n)), lastKey := None))
    decreases n, 1, 0
  {
    OpenReady(s, StartDict);
    var s1 := Apply(s, StartDict).value;
    EmitEntriesInto(s1, n.entries, n);
    assert map[] + n.entries == n.entries;
    OpenFillClose(s, n, EmitEntries(n.entries, n));
  }

  lemma EmitScalarInto(s: State, n: Node)
    requires WellFormed(s) && Ready(s) && !n.Array? && !n.Dict?
    ensures Run(s, Emit(n)) == Ok(s.(root := Put(s.root, Top(s), Slotted(s, n)), lastKey := None))
  {
    assert Emit(n) == [Value(n)];
    assert Run(s, [Value(n)]) == Apply(s, Value(n));
    AtPut(s.root, Top(s), Slotted(s, n));
  }

  /** Spelling out a list of nodes with an array on top (no key pending)
      appends them in order. */
  lemma {:induction false} EmitItemsInto(s: State, xs: seq<Node>, parent: Node)
    requires WellFormed(s) && s.stack != [] && TopNode(s).Array? && s.lastKey == None
    requires parent.Array? && forall x | x in xs :: x in parent.items
    ensures Run(s, EmitItems(xs, parent)) == Ok(s.(root := Put(s.root, Top(s), Array(TopNode(s).items + xs))))
    decreases parent, 0, |xs|
  {
    var top, items := Top(s), TopNode(s).items;
    if xs == [] {
      assert items + xs == items;
      PutAt(s.root, top);
    } else {
      var init, last := xs[..|xs| - 1], xs[|xs| - 1];
      assert last in xs;
      EmitItemsInto(s, init, parent);
      var s1 := s.(root := Put(s.root, top, Array(items + init)));
      assert WellFormed(s1) && s1.stack != [] && Top(s1) == top && TopNode(s1) == Array(items + init) by {
        AtPut(s.root, top, Array(items + init));
      }
      EmitInto(s1, last);
      assert items + init + [last] == items + xs;
      RunThenPut(s, EmitItems(init, parent), Emit(last), Array(items + init), Array(items + xs));
    }
  }

  /** Spelling out the entries of `m` with a map on top (no key pending, none
      of the keys present) adds them all. */
  lemma {:induction false} EmitEntriesInto(s: State, m: map<string, Node>, parent: Node)
    requires WellFormed(s) && s.stack != [] && TopNode(s).Dict? && s.lastKey == None
    requires m.Keys !! TopNode(s).entries.Keys
    requires parent.Dict? && forall k | k in m :: k in parent.entries && m[k] == parent.entries[k]
    ensures Run(s, EmitEntries(m, parent)) ==
      Ok(s.(root := Put(s.root, Top(s), Dict(TopNode(s).entries + m))))
    decreases parent, 0, |m|, 1
  {
    var top, m0 := Top(s), TopNode(s).entries;
    if m == map[] {
      assert m0 + m == m0;
      PutAt(s.root, top);
    } else {
      var k := PickKey(m);
      SplitEntry(m0, m, k);
      assert forall j | j in m - {k} :: j in m;
      EmitEntriesInto(s, m - {k}, parent);
      EntriesStep(s, m, parent, k);
    }
  }

  /** The last entry of `m`, spelled after the others. */
  lemma {:induction false} EntriesStep(s: State, m: map<string, Node>, parent: Node, k: string)
    requires WellFormed(s) && s.stack != [] && TopNode(s).Dict? && s.lastKey == None
    requires m.Keys !! TopNode(s).entries.Keys
    requires parent.Dict? && forall j | j in m :: j in parent.entries && m[j] == parent.entries[j]
    requires m != map[] && k == PickKey(m)
    requires Run(s, EmitEntries(m - {k}, parent)) ==
      Ok(s.(root := Put(s.root, Top(s), Dict(TopNode(s).entries + (m - {k})))))
    ensures Run(s, EmitEntries(m, parent)) ==
      Ok(s.(root := Put(s.root, Top(s), Dict(TopNode(s).entries + m))))
    decreases parent, 0, |m|, 0
  {
    var top, m0, rest := Top(s), TopNode(s).entries, m - {k};
    SplitEntry(m0, m, k);
    assert EmitEntries(m, parent) == EmitEntries(rest, parent) + ([Key(k)] + Emit(m[k]));
    var s1 := s.(root := Put(s.root, top, Dict(m0 + rest)));
    AtPut(s.root, top, Dict(m0 + rest));
    assert Top(s1) == top && TopNode(s1) == Dict(m0 + rest);
    KeyThenEmit(s1, k, m[k]);
    RunThenPut(s, EmitEntries(rest, parent), [Key(k)] + Emit(m[k]), Dict(m0 + rest), Dict(m0 + m));
  }

  /** Two runs that each rewrite the top composite: the second rewrite wins. */
  lemma RunThenPut(s: State, ops: seq<Op>, more: seq<Op>, a: Node, b: Node)
    requires WellFormed(s) && s.stack != []
    requires Run(s, ops) == Ok(s.(root := Put(s.root, Top(s), a)))
    requires WellFormed(s.(root := Put(s.root, Top(s), a)))
    requires Run(s.(root := Put(s.root, Top(s), a)), more) == Ok(s.(root := Put(Put(s.root, Top(s), a), Top(s), b)))
    ensures Run(s, ops + more) == Ok(s.(root := Put(s.root, Top(s), b)))
  {
    RunConcat(s, ops, more);
    PutPut(s.root, Top(s), a, b);
  }

  /** Taking entry `k` out of `m` and putting it back after the rest. */
  lemma SplitEntry(m0: map<string, Node>, m: map<string, Node>, k: string)
    requires k in m && m.Keys !! m0.Keys
    ensures (m - {k}).Keys !! m0.Keys && |m - {k}| < |m|
    ensures k !in m0 + (m - {k}) && (m0 + (m - {k}))[k := m[k]] == m0 + m
  {
    assert (m - {k}).Keys == m.Keys - {k};
    ReinsertEntry(m0, m, k);
  }

  lemma ReinsertEntry(m0: map<string, Node>, m: map<string, Node>, k: string)
    requires k in m && m.Keys !! m0.Keys
    ensures k !in m0 + (m - {k}) && (m0 + (m - {k}))[k := m[k]] == m0 + m
  {
    var rest := m - {k};
    assert k !in m0 + rest;
    var left, right := (m0 + rest)[k := m[k]], m0 + m;
    assert left.Keys == right.Keys;
    forall j | j in right
      ensures left[j] == right[j]
    {
      if j != k && j in m {
        assert j in rest;
      }
    }
  }

  /** `Key(k)` followed by the calls spelling out `v`, with a map without `k`
      on top and no key pending, adds the entry `k: v`. */
  lemma {:induction false} KeyThenEmit(s: State, k: string, v: Node)
    requires WellFormed(s) && s.stack != [] && TopNode(s).Dict? && s.lastKey == None
    requires k !in TopNode(s).entries
    ensures Run(s, [Key(k)] + Emit(v)) ==
      Ok(s.(root := Put(s.root, Top(s), Dict(TopNode(s).entries[k := v]))))
    decreases v, 1, 2
  {
    var s1 := s.(lastKey := Some(k));
    assert Apply(s, Key(k)) == Ok(s1);
    EmitInto(s1, v);
    assert ([Key(k)] + Emit(v))[0] == Key(k) && ([Key(k)] + Emit(v))[1..] == Emit(v);
  }

  /** The builder's central promise, on the calls that spell out a tree: from a
      fresh builder they succeed, and `Build` returns exactly that tree. */
  lemma {:induction false} BuildReturnsSpelledTree(n: Node)
    ensures Run(Fresh(), Emit(n)).Ok?
    ensures Built(Run(Fresh(), Emit(n)).value) == Ok(n)
  {
    match n
    case Array(xs) =>
      var s1 := State(Array([]), [[]], None, false);
      assert Apply(Fresh(), StartArray) == Ok(s1);
      EmitItemsInto(s1, xs, n);
      assert [] + xs == xs;
      RootFillClose(n, EmitItems(xs, n));
    case Dict(m) =>
      var s1 := State(Dict(map[]), [[]], None, false);
      assert Apply(Fresh(), StartDict) == Ok(s1);
      EmitEntriesInto(s1, m, n);
      assert map[] + m == m;
      RootFillClose(n, EmitEntries(m, n));
    case _ =>
      assert Emit(n) == [Value(n)];
      assert Run(Fresh(), [Value(n)]) == Apply(Fresh(), Value(n));
  }

  /** Opening the root, filling it to `n` and closing it completes the builder
      with `n` as the root. */
  lemma RootFillClose(n: Node, fill: seq<Op>)
    requires n.IsComposite()
    requires var s1 := State(if n.Array? then Array([]) else Dict(map[]), [[]], None, false);
      Run(s1, fill) == Ok(s1.(root := n))
    ensures Run(Fresh(), [if n.Array? then StartArray else StartDict] + fill + [if n.Array? then EndArray else EndDict]) ==
      Ok(State(n, [], None, false))
  {
    var open, close := if n.Array? then StartArray else StartDict, if n.Array? then EndArray else EndDict;
    var s1 := State(if n.Array? then Array([]) else Dict(map[]), [[]], None, false);
    assert Apply(Fresh(), open) == Ok(s1);
    var s2 := s1.(root := n);
    var s3 := State(n, [], None, false);
    assert Apply(s2, close) == Ok(s3);
    assert Run(s2, [close]) == Ok(s3) by { assert Run(s3, []) == Ok(s3); }
    RunConcat(s1, fill, [close]);
    assert [open] + fill + [close] == [open] + (fill + [close]);
    assert Run(Fresh(), [open] + (fill + [close])) == Run(s1, fill + [close]);
  }
}
