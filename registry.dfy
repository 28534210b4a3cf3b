/**
 * The `ws_connections` registry of open `/mails` WebSocket connections.
 * The open handler appends the connection; the close handler erases every
 * occurrence of it with the erase-remove idiom, keeping the others in order.
 */
module Registry {
  import opened Wrappers
  import opened Json

  /** A connection is known only by its identity (the pointer the vector holds). */
  type Handle = nat

  /** The registry after erase-remove of `h`: every other entry, in order. */
  function Without(s: seq<Handle>, h: Handle): seq<Handle> {
    if |s| == 0 then []
    else if s[0] == h then Without(s[1..], h)
    else [s[0]] + Without(s[1..], h)
  }

  /** Membership after removal: exactly the other handles that were present. */
  lemma {:induction false} WithoutMembers(s: seq<Handle>, h: Handle)
    ensures forall x :: x in Without(s, h) <==> x in s && x != h
  {
    if |s| > 0 {
      WithoutMembers(s[1..], h);
      assert s == [s[0]] + s[1..];
    }
  }

  /** Every other handle keeps its number of occurrences; `h` has none left. */
  lemma {:induction false} WithoutCounts(s: seq<Handle>, h: Handle)
    ensures multiset(Without(s, h))[h] == 0
    ensures forall x :: x != h ==> multiset(Without(s, h))[x] == multiset(s)[x]
  {
    if |s| > 0 {
      WithoutCounts(s[1..], h);
      assert s == [s[0]] + s[1..];
    }
  }

  /** Removal works piecewise, so the relative order of the survivors is that of `s`. */
  lemma {:induction false} WithoutAppend(a: seq<Handle>, b: seq<Handle>, h: Handle)
    ensures Without(a + b, h) == Without(a, h) + Without(b, h)
  {
    if |a| > 0 {
      assert (a + b)[1..] == a[1..] + b;
      WithoutAppend(a[1..], b, h);
    } else {
      assert a + b == b;
    }
  }

  /** Removing a handle that is not registered changes nothing. */
  lemma {:induction false} WithoutAbsent(s: seq<Handle>, h: Handle)
    requires h !in s
    ensures Without(s, h) == s
  {
    if |s| > 0 {
      WithoutAbsent(s[1..], h);
      assert s == [s[0]] + s[1..];
    }
  }

  /** A second removal of the same handle changes nothing. */
  lemma WithoutIdempotent(s: seq<Handle>, h: Handle)
    ensures Without(Without(s, h), h) == Without(s, h)
  {
    WithoutMembers(s, h);
    WithoutAbsent(Without(s, h), h);
  }

  /** Opening a fresh connection and closing it again restores the registry. */
  lemma OpenThenClose(s: seq<Handle>, h: Handle)
    requires h !in s
    ensures Without(s + [h], h) == s
  {
    WithoutAppend(s, [h], h);
    WithoutAbsent(s, h);
    assert Without([h], h) == [];
  }

  /** The text of the greeting each new connection is sent. */
  const WelcomeText: string := "Connected to alpha-strikes notification service."

  /** The greeting document, `{"message": WelcomeText}`. */
  function Welcome(): (j: Json)
    ensures j.JObject? && Keys(j.members) == ["message"]
    ensures Find(j.members, "message") == Some(JString(WelcomeText))
  {
    JObject([Member("message", JString(WelcomeText))])
  }

  class ConnectionRegistry {
    /** The registered connections, oldest first. */
    var connections: seq<Handle>

    constructor ()
      ensures connections == []
    {
      connections := [];
    }

    /**
     * The open handler: append the connection and return the compact text of
     * the greeting sent to it.
     */
    method OnOpen(h: Handle) returns (greeting: string)
      modifies this
      ensures connections == old(connections) + [h]
      ensures greeting == Compact(Welcome())
    {
      connections := connections + [h];
      greeting := Compact(Welcome());
    }

    /** The close handler: `std::remove` compacts the survivors, then `erase` drops the tail. */
    method OnClose(h: Handle)
      modifies this
      ensures connections == Without(old(connections), h)
    {
      var s := connections;
      var kept: seq<Handle> := [];
      var i := 0;
      while i < |s|
        invariant 0 <= i <= |s|
        invariant kept == Without(s[..i], h)
      {
        WithoutAppend(s[..i], [s[i]], h);
        assert s[..i + 1] == s[..i] + [s[i]];
        if s[i] != h {
          kept := kept + [s[i]];
        }
        i := i + 1;
      }
      assert s[..i] == s;
      connections := kept;
    }
  }
}
