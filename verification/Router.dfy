/** The fanout registry, `pubsub/server/router.py`: a dictionary of live registrations in the order in
    which they were added. */
module Router {
  import opened Common
  import opened Types
  import opened Topic

  datatype Registration = Registration(tokens: seq<string>, replaying: bool, buffer: seq<Delivery>)

  /** Keys once each, in insertion order. */
  ghost predicate Ordered<V>(order: seq<nat>, entries: map<nat, V>) {
    && (forall i, j | 0 <= i < j < |order| :: order[i] != order[j])
    && (forall key :: key in order <==> key in entries)
  }

  /** The registrations that a subject reaches, in registration order. */
  function Reached(order: seq<nat>, entries: map<nat, Registration>, subject: seq<string>): seq<nat> {
    if order == [] then []
    else if order[0] in entries && Denotes(entries[order[0]].tokens, subject)
    then [order[0]] + Reached(order[1..], entries, subject)
    else Reached(order[1..], entries, subject)
  }

  ghost predicate Precedes(order: seq<nat>, x: nat, y: nat) {
    exists a, b :: 0 <= a < b < |order| && order[a] == x && order[b] == y
  }

  lemma TailPrecedes(order: seq<nat>, x: nat, y: nat)
    requires order != [] && (Precedes(order[1..], x, y) || (x == order[0] && y in order[1..]))
    ensures Precedes(order, x, y)
  {
    if Precedes(order[1..], x, y) {
      var a, b :| 0 <= a < b < |order[1..]| && order[1..][a] == x && order[1..][b] == y;
      assert order[a + 1] == x && order[b + 1] == y;
    } else {
      var b :| 0 <= b < |order[1..]| && order[1..][b] == y;
      assert order[0] == x && order[b + 1] == y;
    }
  }

  /** `keys` are distinct keys of `order`, in the same order. */
  ghost predicate Subsequence(order: seq<nat>, keys: seq<nat>) {
    && (forall key <- keys :: key in order)
    && (forall i, j | 0 <= i < j < |keys| :: keys[i] != keys[j] && Precedes(order, keys[i], keys[j]))
  }

  lemma SubsequenceSkip(order: seq<nat>, keys: seq<nat>)
    requires order != [] && Subsequence(order[1..], keys)
    ensures Subsequence(order, keys)
  {
    forall i, j | 0 <= i < j < |keys|
      ensures Precedes(order, keys[i], keys[j])
    {
      TailPrecedes(order, keys[i], keys[j]);
    }
  }

  lemma SubsequenceTake(order: seq<nat>, keys: seq<nat>)
    requires order != [] && order[0] !in order[1..] && Subsequence(order[1..], keys)
    ensures Subsequence(order, [order[0]] + keys)
  {
    SubsequenceSkip(order, keys);
    forall j | 0 <= j < |keys|
      ensures order[0] != keys[j] && Precedes(order, order[0], keys[j])
    {
      assert keys[j] in keys;
      TailPrecedes(order, order[0], keys[j]);
    }
  }

  /** Fanout reaches exactly the registrations whose pattern denotes the subject, each once, earlier
      registrations first. */
  lemma {:induction false} ReachedExactly(order: seq<nat>, entries: map<nat, Registration>, subject: seq<string>)
    requires forall i, j | 0 <= i < j < |order| :: order[i] != order[j]
    ensures forall key :: key in Reached(order, entries, subject) <==>
      key in order && key in entries && Denotes(entries[key].tokens, subject)
    ensures Subsequence(order, Reached(order, entries, subject))
  {
    if order != [] {
      assert order == [order[0]] + order[1..];
      ReachedExactly(order[1..], entries, subject);
      SubsequenceSkip(order, Reached(order[1..], entries, subject));
      SubsequenceTake(order, Reached(order[1..], entries, subject));
    }
  }

  lemma ReachedFrom(order: seq<nat>, i: nat, entries: map<nat, Registration>, subject: seq<string>)
    requires i < |order|
    ensures Reached(order[i..], entries, subject) ==
      (if order[i] in entries && Denotes(entries[order[i]].tokens, subject) then [order[i]] else [])
      + Reached(order[i + 1..], entries, subject)
  {
    assert order[i..][1..] == order[i + 1..];
  }

  lemma ReachedNone(entries: map<nat, Registration>, subject: seq<string>)
    ensures Reached([], entries, subject) == []
  {
  }

  /** The order after `key` was popped. */
  function Without(order: seq<nat>, key: nat): seq<nat> {
    if order == [] then []
    else if order[0] == key then Without(order[1..], key)
    else [order[0]] + Without(order[1..], key)
  }

  /** Everything but `key`, in the same order. */
  lemma {:induction false} WithoutKeeps(order: seq<nat>, key: nat)
    requires forall i, j | 0 <= i < j < |order| :: order[i] != order[j]
    ensures Subsequence(order, Without(order, key))
    ensures forall k :: k in Without(order, key) <==> k in order && k != key
    ensures forall i, j | 0 <= i < j < |Without(order, key)| :: Without(order, key)[i] != Without(order, key)[j]
    ensures key !in order ==> Without(order, key) == order
  {
    if order != [] {
      WithoutKeeps(order[1..], key);
      assert order == [order[0]] + order[1..];
      assert order[0] !in order[1..];
      assert order[0] !in Without(order[1..], key);
      SubsequenceSkip(order, Without(order[1..], key));
      SubsequenceTake(order, Without(order[1..], key));
    }
  }

  class Router {
    var order: seq<nat>
    var entries: map<nat, Registration>

    ghost predicate Valid()
      reads this
    {
      && Ordered(order, entries)
      && (forall key <- entries :: ValidTokens(entries[key].tokens))
    }

    constructor ()
      ensures Valid() && order == [] && entries == map[]
    {
      order, entries := [], map[];
    }

    /** A new key goes to the end; an existing one keeps its place. */
    method Register(id: nat, registration: Registration)
      requires Valid() && ValidTokens(registration.tokens)
      modifies this
      ensures Valid() && entries == old(entries)[id := registration]
      ensures order == if id in old(entries) then old(order) else old(order) + [id]
    {
      if id !in entries {
        order := order + [id];
      }
      entries := entries[id := registration];
    }

    method Unregister(id: nat)
      requires Valid()
      modifies this
      ensures Valid() && entries == old(entries) - {id} && order == Without(old(order), id)
    {
      WithoutKeeps(order, id);
      if id in entries {
        order := Without(order, id);
        entries := entries - {id};
      } else {
        assert entries == entries - {id};
      }
    }

    method ActiveCount() returns (n: nat)
      requires Valid()
      ensures n == |entries|
    {
      n := |entries|;
    }

    lemma KnownEntry(i: nat)
      requires Valid() && i < |order|
      ensures order[i] in entries && ValidTokens(entries[order[i]].tokens)
    {
      assert order[i] in order;
    }

    /** `list(match(subject))`. An invalid subject is noticed by the first registration looked at. */
    method Match(subject: string) returns (r: Result<seq<nat>, TopicError>)
      requires Valid()
      ensures r.Err? <==> order != [] && !WellSplit(subject)
      ensures r.Ok? ==> r.value == Reached(order, entries, Split(subject))
    {
      var matched := [];
      ghost var sub := Split(subject);
      hide Denotes, Reached, Ordered;
      ReachedNone(entries, sub);
      assert order[0..] == order && order[|order|..] == [];
      for i := 0 to |order|
        invariant i > 0 ==> WellSplit(subject)
        invariant matched + Reached(order[i..], entries, sub) == Reached(order, entries, sub)
      {
        KnownEntry(i);
        ReachedFrom(order, i, entries, sub);
        var hit := MatchesTokens(entries[order[i]].tokens, subject);
        if hit.Err? {
          return Err(hit.error);
        }
        if hit.value {
          matched := matched + [order[i]];
        }
      }
      return Ok(matched);
    }
  }
}
