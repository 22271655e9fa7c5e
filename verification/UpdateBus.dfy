/** `PropertyUpdateBus`: the subscriber list and the fan-out of one update, as one thread sees them. */
module UpdateBus {
  import opened Properties

  datatype Key = Key(device: string, name: string)

  /** `threading.Event` */
  class Event {
    var isSet: bool

    constructor ()
      ensures !isSet
    {
      isSet := false;
    }
  }

  /** The callback of `wait_for_state`: it sets an event when its property reaches its target state. */
  datatype Callback = Callback(key: Key, target: State, matched: Event)

  /** What `on_update` tests: an update of this property, to this state. */
  predicate Matches(wanted: Key, target: State, key: Key, state: State) {
    wanted == key && target == state
  }

  /** The list without the first occurrence of `cb`; unchanged if there is none. */
  function Without<T(==)>(s: seq<T>, x: T): seq<T> {
    if |s| == 0 then [] else if s[0] == x then s[1..] else [s[0]] + Without(s[1..], x)
  }

  class Bus {
    var subscribers: seq<Callback>

    constructor ()
      ensures subscribers == []
    {
      subscribers := [];
    }

    method Subscribe(cb: Callback)
      modifies this
      ensures subscribers == old(subscribers) + [cb]
    {
      subscribers := subscribers + [cb];
    }

    method Unsubscribe(cb: Callback)
      modifies this
      ensures subscribers == Without(old(subscribers), cb)
    {
      var subs := subscribers;
      var i := 0;
      while i < |subs| && subs[i] != cb
        invariant i <= |subs| && cb !in subs[..i]
      {
        i := i + 1;
      }
      WithoutFirst(subs, cb, i);
      if i < |subs| {
        subscribers := subs[..i] + subs[i + 1..];
      }
    }

    /** `notify`: exactly the events of the matching callbacks become set; the list stays. */
    method Notify(key: Key, state: State)
      modifies set cb | cb in subscribers :: cb.matched
      ensures forall cb :: cb in subscribers ==>
                (cb.matched.isSet <==>
                 old(cb.matched.isSet) || exists o :: o in subscribers && o.matched == cb.matched && o.key == key && o.target == state)
    {
      var subs := subscribers;
      for i := 0 to |subs|
        invariant forall cb :: cb in subs ==>
                    (cb.matched.isSet <==>
                     old(cb.matched.isSet) || exists k :: 0 <= k < i && subs[k].matched == cb.matched && subs[k].key == key && subs[k].target == state)
      {
        if Matches(subs[i].key, subs[i].target, key, state) {
          subs[i].matched.isSet := true;
        }
      }
    }
  }

  lemma {:induction false} WithoutFirst<T>(s: seq<T>, x: T, i: nat)
    requires i <= |s| && x !in s[..i] && (i < |s| ==> s[i] == x)
    ensures Without(s, x) == if i < |s| then s[..i] + s[i + 1..] else s
  {
    if i == 0 {
    } else {
      var rest := s[1..];
      assert s[0] in s[..i];
      assert rest[..i - 1] == s[..i][1..];
      WithoutFirst(rest, x, i - 1);
      if i < |s| {
        assert rest[i..] == s[i + 1..];
        assert s[..i] == [s[0]] + rest[..i - 1];
      } else {
        assert s == [s[0]] + rest;
      }
    }
  }
}
