/**
 * The server-side notifier (lib/notifier.js): each socket connection has a
 * State holding its user and its channel subscriptions, and a StateVec keeps
 * the live states in slots, reusing freed slots before it grows.
 */
module Notifier {
  import opened Wrappers

  /** A value of a client message: a string, an integer, or undefined when it is missing. */
  datatype Value = Str(s: string) | Num(n: int) | Undefined

  /** The decimal digits of n, most significant first. */
  function Digits(n: nat): (r: string)
    ensures |r| >= 1
    ensures forall i :: 0 <= i < |r| ==> '0' <= r[i] <= '9'
    decreases n
  {
    var d := [(('0' as int) + n % 10) as char];
    if n < 10 then d else Digits(n / 10) + d
  }

  /** The property key a value names: String(value). */
  function Key(v: Value): string {
    match v
    case Str(s) => s
    case Num(n) => if n < 0 then "-" + Digits(-n) else Digits(n)
    case Undefined => "undefined"
  }

  /** arguments[k] of a message, undefined past its end. */
  function Arg(msg: seq<Value>, k: nat): Value {
    if k < |msg| then msg[k] else Undefined
  }

  predicate NoDup(s: seq<Value>) {
    forall i, j :: 0 <= i < j < |s| ==> s[i] != s[j]
  }

  /** _.uniq: the first occurrence of every value, in order. */
  function Uniq(s: seq<Value>): (r: seq<Value>)
    ensures NoDup(r) && forall x :: x in r <==> x in s
    ensures NoDup(s) ==> r == s
  {
    if |s| == 0 then []
    else
      var u := Uniq(s[..|s| - 1]);
      var x := s[|s| - 1];
      assert s == s[..|s| - 1] + [x];
      if x in u then u else u + [x]
  }

  /** The channel list subscribe leaves: id pushed, then duplicates dropped. */
  function Subscribed(list: seq<Value>, id: Value): (r: seq<Value>)
    ensures NoDup(r)
    ensures NoDup(list) && id in list ==> r == list
    ensures NoDup(list) && id !in list ==> r == list + [id]
  {
    assert (list + [id])[..|list + [id]| - 1] == list;
    Uniq(list + [id])
  }

  /** Subscribing twice to the same channel is subscribing once. */
  lemma SubscribeIdempotent(list: seq<Value>, id: Value)
    requires NoDup(list)
    ensures Subscribed(Subscribed(list, id), id) == Subscribed(list, id)
  {
  }

  /** The user Token.get answers for a token. */
  datatype User = User(id: string)

  /**
   * How `name in handlers` reads a handler name AS WRITTEN: `in` also sees
   * the properties handlers inherits from Object.prototype.
   */
  datatype Lookup = Auth | Sub | Inherited(name: string) | Missing

  const ObjectPrototypeNames: set<string> := {
    "constructor", "hasOwnProperty", "isPrototypeOf", "propertyIsEnumerable",
    "toLocaleString", "toString", "valueOf", "__defineGetter__",
    "__defineSetter__", "__lookupGetter__", "__lookupSetter__", "__proto__"}

  function LookupAsWritten(name: string): (l: Lookup)
    ensures l == Missing <==> name != "auth" && name != "sub" && name !in ObjectPrototypeNames
  {
    if name == "auth" then Auth
    else if name == "sub" then Sub
    else if name in ObjectPrototypeNames then Inherited(name)
    else Missing
  }

  /**
   * What dispatch does with an inherited name AS WRITTEN: __proto__ is
   * Object.prototype, which has no apply, and __defineGetter__ /
   * __defineSetter__ demand a function where a message can only carry JSON,
   * so these throw a TypeError; the other inherited methods run on the state
   * and change nothing.
   */
  function InheritedDispatchAsWritten(name: string): (r: Result<()>)
    requires name in ObjectPrototypeNames
    ensures r.Err? <==> name in {"__proto__", "__defineGetter__", "__defineSetter__"}
  {
    if name == "__proto__" || name == "__defineGetter__" || name == "__defineSetter__" then Err(TypeError)
    else Ok(())
  }

  /** The handler actually meant: only the own properties auth and sub. */
  function LookupOwn(name: string): (l: Lookup)
    ensures l == Auth <==> name == "auth"
    ensures l == Sub <==> name == "sub"
    ensures l == Missing <==> name != "auth" && name != "sub"
  {
    if name == "auth" then Auth else if name == "sub" then Sub else Missing
  }

  /** The message ["__proto__"] throws as written, and is ignored by the own-property lookup. */
  lemma ProtoMessageThrows()
    ensures LookupAsWritten(Key(Arg([Str("__proto__")], 0))) == Inherited("__proto__")
    ensures InheritedDispatchAsWritten("__proto__") == Err(TypeError)
    ensures LookupOwn(Key(Arg([Str("__proto__")], 0))) == Missing
  {
  }

  /**
   * subscribe(state, type, id) AS WRITTEN on the channel map: `type in
   * state.channels` also sees what the map inherits from Object.prototype,
   * so for such a name no list is created and `.push` is looked up on an
   * inherited function (or on Object.prototype itself), which has none: the
   * call throws TypeError before anything changes. Every other type gets
   * the subscribed list.
   */
  function SubscribeAsWritten(channels: map<string, seq<Value>>, chanType: Value, chanId: Value): (r: Result<map<string, seq<Value>>>)
    ensures r.Err? <==> Key(chanType) !in channels && Key(chanType) in ObjectPrototypeNames
    ensures r.Err? ==> r.error == TypeError
    ensures r.Ok? ==> Key(chanType) in r.value && NoDup(r.value[Key(chanType)])
    ensures r.Ok? ==> forall t :: t in channels && t != Key(chanType) ==> t in r.value && r.value[t] == channels[t]
    ensures r.Ok? ==> chanId in r.value[Key(chanType)]
  {
    var t := Key(chanType);
    if t in channels then Ok(channels[t := Subscribed(channels[t], chanId)])
    else if t in ObjectPrototypeNames then Err(TypeError)
    else Ok(channels[t := Subscribed([], chanId)])
  }

  /**
   * The message ["sub", "toString", "x"] on a fresh state throws as
   * written, while subscribing by own keys gives the type "toString" the
   * list ["x"].
   */
  lemma SubToStringThrows()
    ensures LookupOwn(Key(Arg([Str("sub"), Str("toString"), Str("x")], 0))) == Sub
    ensures SubscribeAsWritten(map[], Arg([Str("sub"), Str("toString"), Str("x")], 1), Str("x")) == Err(TypeError)
    ensures Subscribed([], Arg([Str("sub"), Str("toString"), Str("x")], 2)) == [Str("x")]
  {
    var msg := [Str("sub"), Str("toString"), Str("x")];
    assert Key(Arg(msg, 0)) == "sub";
    assert Key(Arg(msg, 1)) == "toString";
    assert "toString" in ObjectPrototypeNames;
    assert Arg(msg, 2) == Str("x");
    assert Str("x") !in [];
  }

  class State {
    /** _.uniqueId() */
    const id: nat
    var user: Option<User>
    /** channel type -> the subscribed channel ids */
    var channels: map<string, seq<Value>>

    ghost predicate Valid()
      reads this
    {
      forall t :: t in channels ==> NoDup(channels[t])
    }

    constructor (uid: nat)
      ensures id == uid && user == None && channels == map[] && Valid()
    {
      id := uid;
      user := None;
      channels := map[];
    }

    function ChannelList(t: string): seq<Value>
      reads this
    {
      if t in channels then channels[t] else []
    }

    /** authUser(state, uid, tok): the user the token belongs to, if any. */
    method AuthUser(uid: Value, tok: Value, tokenUser: Value -> Option<User>)
      modifies this
      ensures user == tokenUser(tok) && channels == old(channels)
    {
      user := tokenUser(tok);
    }

    /**
     * subscribe(state, type, id) as meant, testing own keys only: the
     * channel id is listed once under its type. Wherever the code as
     * written does not throw, the two agree.
     */
    method Subscribe(chanType: Value, chanId: Value)
      requires Valid()
      modifies this
      ensures Valid() && user == old(user)
      ensures channels == old(channels)[Key(chanType) := Subscribed(old(ChannelList(Key(chanType))), chanId)]
      ensures SubscribeAsWritten(old(channels), chanType, chanId).Ok? ==>
        channels == SubscribeAsWritten(old(channels), chanType, chanId).value
    {
      var t := Key(chanType);
      if t !in channels {
        channels := channels[t := []];
      }
      channels := channels[t := Uniq(channels[t] + [chanId])];
    }

    /**
     * dispatch(name, ...): auth and sub run with the state and the rest of
     * the message; every other name is ignored (the own-property lookup).
     */
    method Dispatch(msg: seq<Value>, tokenUser: Value -> Option<User>)
      requires Valid()
      modifies this
      ensures Valid()
      ensures LookupOwn(Key(Arg(msg, 0))) == Auth ==>
        user == tokenUser(Arg(msg, 2)) && channels == old(channels)
      ensures LookupOwn(Key(Arg(msg, 0))) == Sub ==>
        user == old(user) &&
        channels == old(channels)[Key(Arg(msg, 1)) := Subscribed(old(ChannelList(Key(Arg(msg, 1)))), Arg(msg, 2))]
      ensures LookupOwn(Key(Arg(msg, 0))) == Missing ==> user == old(user) && channels == old(channels)
    {
      var name := Key(Arg(msg, 0));
      match LookupOwn(name)
      case Auth => AuthUser(Arg(msg, 1), Arg(msg, 2), tokenUser);
      case Sub => Subscribe(Arg(msg, 1), Arg(msg, 2));
      case _ =>
    }
  }

  /** _.findIndex over the slots: the first live state with this id, or -1. */
  function FindById(s: seq<State?>, id: nat): (k: int)
    ensures -1 <= k < |s|
    ensures k >= 0 ==> s[k] != null && s[k].id == id
    ensures k == -1 <==> forall j :: 0 <= j < |s| ==> s[j] == null || s[j].id != id
  {
    if |s| == 0 then -1
    else
      var k := FindById(s[..|s| - 1], id);
      if k >= 0 then k
      else if s[|s| - 1] != null && s[|s| - 1].id == id then |s| - 1
      else -1
  }

  /** The live states subscribed to channel (type, id), in slot order. */
  function Listeners(s: seq<State?>, chanType: string, chanId: Value): (r: seq<State>)
    reads set k | 0 <= k < |s| && s[k] != null :: s[k]
    ensures forall x :: x in r ==> x in s && chanType in x.channels && chanId in x.channels[chanType]
  {
    if |s| == 0 then []
    else
      var x := s[|s| - 1];
      Listeners(s[..|s| - 1], chanType, chanId) +
        if x != null && chanType in x.channels && chanId in x.channels[chanType] then [x] else []
  }

  /** One more slot adds its state when it listens on the channel. */
  lemma ListenersStep(s: seq<State?>, i: nat, chanType: string, chanId: Value)
    requires i < |s|
    ensures Listeners(s[..i + 1], chanType, chanId) == Listeners(s[..i], chanType, chanId) +
      if s[i] != null && chanType in s[i].channels && chanId in s[i].channels[chanType] then [s[i]] else []
  {
    assert s[..i + 1][..i] == s[..i];
  }

  class StateVec {
    var states: seq<State?>
    var freeIndex: seq<int>
    /** the counter _.uniqueId draws from */
    var nextId: nat

    /**
     * A slot is null exactly when its index is free; the free indices are
     * distinct; -1 is the index removeState records for a state it does not
     * find; live states have distinct ids below the counter.
     */
    ghost predicate Valid()
      reads this
    {
      (forall k :: 0 <= k < |states| ==> (states[k] == null <==> k in freeIndex)) &&
      (forall j :: 0 <= j < |freeIndex| ==> -1 <= freeIndex[j] < |states|) &&
      (forall i, j :: 0 <= i < j < |freeIndex| && freeIndex[i] >= 0 ==> freeIndex[i] != freeIndex[j]) &&
      (forall k :: 0 <= k < |states| && states[k] != null ==> states[k].id < nextId) &&
      (forall i, j :: 0 <= i < j < |states| && states[i] != null && states[j] != null ==> states[i].id != states[j].id)
    }

    constructor ()
      ensures states == [] && freeIndex == [] && Valid()
    {
      states := [];
      freeIndex := [];
      nextId := 0;
    }

    /**
     * removeState(state): the slot holding the state is nulled and its index
     * recorded as free; a state no slot holds records -1 and moves no slot
     * (the write to states[-1] sets a property, not a slot).
     */
    method RemoveState(state: State)
      requires Valid()
      modifies this
      ensures Valid() && nextId == old(nextId)
      ensures var k := FindById(old(states), state.id);
        (k >= 0 ==> states == old(states)[k := null] && freeIndex == old(freeIndex) + [k]) &&
        (k == -1 ==> states == old(states) && freeIndex == old(freeIndex) + [-1])
    {
      var idx := FindById(states, state.id);
      if idx >= 0 {
        states := states[idx := null];
      }
      freeIndex := freeIndex + [idx];
    }

    /**
     * create(sock): a new state in the last freed slot when there is one,
     * else in a new slot at the end.  A popped -1 stores the state under the
     * property "-1", outside every slot.
     */
    method Create() returns (state: State)
      requires Valid()
      modifies this
      ensures Valid() && fresh(state) && state.id == old(nextId) && nextId == old(nextId) + 1
      ensures state.user == None && state.channels == map[]
      ensures |old(freeIndex)| == 0 ==> states == old(states) + [state] && freeIndex == []
      ensures |old(freeIndex)| > 0 ==> freeIndex == old(freeIndex)[..|old(freeIndex)| - 1]
      ensures |old(freeIndex)| > 0 && old(freeIndex)[|old(freeIndex)| - 1] >= 0 ==>
        states == old(states)[old(freeIndex)[|old(freeIndex)| - 1] := state]
      ensures |old(freeIndex)| > 0 && old(freeIndex)[|old(freeIndex)| - 1] == -1 ==> states == old(states)
    {
      state := new State(nextId);
      nextId := nextId + 1;
      if |freeIndex| > 0 {
        var idx := freeIndex[|freeIndex| - 1];
        freeIndex := freeIndex[..|freeIndex| - 1];
        if idx >= 0 {
          states := states[idx := state];
        }
      } else {
        states := states + [state];
      }
    }

    /** eachChannel(chan, fn): the states fn is called with, in order. */
    method EachChannel(chanType: string, chanId: Value) returns (visited: seq<State>)
      ensures visited == Listeners(states, chanType, chanId)
    {
      visited := [];
      var i := 0;
      while i < |states|
        invariant 0 <= i <= |states|
        invariant visited == Listeners(states[..i], chanType, chanId)
      {
        ListenersStep(states, i, chanType, chanId);
        if states[i] != null {
          var state := states[i];
          var channels := state.channels;
          if chanType in channels {
            if chanId in channels[chanType] {
              visited := visited + [state];
            }
          }
        }
        i := i + 1;
      }
      assert states[..i] == states;
    }
  }
}
