/** The subscriber list of `subscriber_store.py`. The JSON file is the `subs` field of
    `SubscriberStore`; `writes` counts how often the file is rewritten. */
module Subscribers {
  import opened Wrappers
  import opened Text
  import WhatsApp

  /** `number.replace("whatsapp:", "")`: every occurrence is removed, not only a leading one. */
  function Normalise(number: string): string {
    RemoveAll(number, WhatsApp.Prefix)
  }

  /** A number without the prefix is stored as it is. */
  lemma NormalisePlain(number: string)
    requires !Contains(number, WhatsApp.Prefix)
    ensures Normalise(number) == number
  {
    RemoveAllAbsent(number, WhatsApp.Prefix);
  }

  /** The store undoes what the sender adds: a prefixed destination is stored as the
      bare number would be. */
  lemma NormaliseDestination(number: string)
    ensures Normalise(WhatsApp.Destination(number)) == Normalise(number)
  {
    if !(WhatsApp.Prefix <= number) {
      LeadingPatternDropped(number, WhatsApp.Prefix);
    }
  }

  /** Where the prefix does not start, the first character is kept and removal goes on after it. */
  lemma KeepHead(c: char, rest: string, k: nat)
    requires k < |WhatsApp.Prefix| && k <= |rest| && ([c] + rest)[k] != WhatsApp.Prefix[k]
    ensures Normalise([c] + rest) == [c] + Normalise(rest)
  {
    var s := [c] + rest;
    assert s[1..] == rest;
    if |s| >= |WhatsApp.Prefix| {
      assert s[..|WhatsApp.Prefix|][k] != WhatsApp.Prefix[k];
    } else {
      assert Normalise(rest) == rest;
    }
  }

  lemma PrefixSpelled()
    ensures ['w'] + (['h'] + (['a'] + (['t'] + "sapp:"))) == WhatsApp.Prefix
  {
  }

  /** Removal is a single left-to-right pass, so normalising twice can differ from
      normalising once: removing the inner prefix of "whatwhatsapp:sapp:" closes the
      remaining text up into a new prefix. */
  lemma NormaliseNotIdempotent()
    ensures Normalise("what" + WhatsApp.Prefix + "sapp:") == WhatsApp.Prefix
    ensures Normalise(Normalise("what" + WhatsApp.Prefix + "sapp:")) == ""
  {
    var p := WhatsApp.Prefix;
    var tail := "sapp:";
    var s0 := p + tail;
    var s1 := ['t'] + s0;
    var s2 := ['a'] + s1;
    var s3 := ['h'] + s2;
    var s4 := ['w'] + s3;
    assert s4 == "what" + WhatsApp.Prefix + "sapp:";
    LeadingPatternDropped(tail, p);
    assert Normalise(s0) == tail;
    KeepHead('t', s0, 0);
    KeepHead('a', s1, 0);
    KeepHead('h', s2, 0);
    KeepHead('w', s3, 4);
    var closed := ['w'] + (['h'] + (['a'] + (['t'] + tail)));
    assert Normalise(s4) == closed;
    PrefixSpelled();
    LeadingPatternDropped("", p);
    assert p + "" == p;
  }

  // ---------------------------------------------------------------------------
  // The list operations as functions of the stored list
  // ---------------------------------------------------------------------------

  /** No number is stored twice. */
  predicate NoDup(s: seq<string>) {
    forall i, j :: 0 <= i < j < |s| ==> s[i] != s[j]
  }

  /** A list without duplicates has one entry per distinct number. */
  lemma {:induction false} NoDupDistinct(s: seq<string>)
    requires NoDup(s)
    ensures |set x | x in s| == |s|
    decreases |s|
  {
    if s != [] {
      assert NoDup(s[1..]) by {
        forall i, j | 0 <= i < j < |s[1..]| ensures s[1..][i] != s[1..][j] {
          assert s[1..][i] == s[i + 1] && s[1..][j] == s[j + 1];
        }
      }
      NoDupDistinct(s[1..]);
      assert (set x | x in s) == (set x | x in s[1..]) + {s[0]};
      assert s[0] !in s[1..];
    }
  }

  /** The list after `add(number)`. */
  function Added(subs: seq<string>, number: string): seq<string> {
    var n := Normalise(number);
    if n in subs then subs else subs + [n]
  }

  /** `[s for s in subs if s != n]`. */
  function Without(subs: seq<string>, n: string): (r: seq<string>)
    ensures |r| <= |subs|
    ensures forall x :: x in r <==> x in subs && x != n
  {
    if subs == [] then []
    else if subs[0] == n then Without(subs[1..], n)
    else [subs[0]] + Without(subs[1..], n)
  }

  /** The list after `remove(number)`. */
  function Removed(subs: seq<string>, number: string): seq<string> {
    Without(subs, Normalise(number))
  }

  /** After `add`, the normalised number is listed; an already listed number leaves the
      list as it was, and a new one is appended behind the existing entries. */
  lemma AddedShape(subs: seq<string>, number: string)
    ensures Normalise(number) in Added(subs, number)
    ensures Normalise(number) in subs ==> Added(subs, number) == subs
    ensures Normalise(number) !in subs ==>
      |Added(subs, number)| == |subs| + 1
      && Added(subs, number)[..|subs|] == subs
      && Added(subs, number)[|subs|] == Normalise(number)
  {
  }

  /** Adding the same number twice is adding it once. */
  lemma AddedIdempotent(subs: seq<string>, number: string)
    ensures Added(Added(subs, number), number) == Added(subs, number)
  {
  }

  lemma AddedNoDup(subs: seq<string>, number: string)
    requires NoDup(subs)
    ensures NoDup(Added(subs, number))
  {
  }

  /** Filtering a concatenation filters each part and keeps their order. */
  lemma {:induction false} WithoutAppend(a: seq<string>, b: seq<string>, n: string)
    ensures Without(a + b, n) == Without(a, n) + Without(b, n)
    decreases |a|
  {
    if a == [] {
      assert a + b == b;
    } else {
      assert (a + b)[1..] == a[1..] + b;
      WithoutAppend(a[1..], b, n);
    }
  }

  /** A number that is not listed is filtered out of nothing: the list is unchanged. */
  lemma {:induction false} WithoutAbsent(subs: seq<string>, n: string)
    requires n !in subs
    ensures Without(subs, n) == subs
    decreases |subs|
  {
    if subs != [] {
      WithoutAbsent(subs[1..], n);
      assert subs == [subs[0]] + subs[1..];
    }
  }

  /** Filtering keeps the surviving entries in order, each as often as before. */
  lemma {:induction false} WithoutMultiset(subs: seq<string>, n: string)
    ensures multiset(Without(subs, n)) == multiset(subs)[n := 0]
    decreases |subs|
  {
    if subs != [] {
      WithoutMultiset(subs[1..], n);
      assert subs == [subs[0]] + subs[1..];
    }
  }

  lemma {:induction false} WithoutNoDup(subs: seq<string>, n: string)
    requires NoDup(subs)
    ensures NoDup(Without(subs, n))
    decreases |subs|
  {
    if subs != [] {
      assert NoDup(subs[1..]);
      assert subs[0] !in subs[1..];
      WithoutNoDup(subs[1..], n);
    }
  }

  /** Removing the same number twice is removing it once. */
  lemma RemovedIdempotent(subs: seq<string>, number: string)
    ensures Removed(Removed(subs, number), number) == Removed(subs, number)
  {
    WithoutAbsent(Removed(subs, number), Normalise(number));
  }

  /** Removing a number that was just added as new restores the list. */
  lemma AddThenRemove(subs: seq<string>, number: string)
    requires Normalise(number) !in subs
    ensures Removed(Added(subs, number), number) == subs
  {
    var n := Normalise(number);
    WithoutAppend(subs, [n], n);
    WithoutAbsent(subs, n);
    assert Without([n], n) == [] by { assert [n][1..] == []; }
  }

  // ---------------------------------------------------------------------------
  // The store
  // ---------------------------------------------------------------------------

  class SubscriberStore {
    /** The contents of the subscriber file. */
    var subs: seq<string>
    /** How many times the subscriber file has been written. */
    var writes: nat

    ghost predicate Valid()
      reads this
    {
      NoDup(subs)
    }

    /** Opening the store: an absent file (`persisted` is `None`) is created empty;
        an existing one is read as it is. */
    constructor (persisted: Option<seq<string>>)
      ensures persisted.None? ==> subs == [] && writes == 1
      ensures persisted.Some? ==> subs == persisted.value && writes == 0
      ensures persisted.None? || NoDup(persisted.value) ==> Valid()
    {
      if persisted.None? {
        subs := [];
        writes := 1;
      } else {
        subs := persisted.value;
        writes := 0;
      }
    }

    /** `add`: normalise, then append and write only when the number is not listed yet. */
    method Add(number: string)
      modifies this
      ensures subs == Added(old(subs), number)
      ensures Normalise(number) in old(subs) ==> writes == old(writes)
      ensures Normalise(number) !in old(subs) ==> writes == old(writes) + 1
      ensures old(Valid()) ==> Valid()
    {
      var n := RemoveAll(number, WhatsApp.Prefix);
      if n !in subs {
        subs := subs + [n];
        writes := writes + 1;
      }
      if NoDup(old(subs)) {
        AddedNoDup(old(subs), number);
      }
    }

    /** `remove`: normalise, drop every equal entry, and write the file in any case. */
    method Remove(number: string)
      modifies this
      ensures subs == Removed(old(subs), number)
      ensures writes == old(writes) + 1
      ensures old(Valid()) ==> Valid()
    {
      var n := RemoveAll(number, WhatsApp.Prefix);
      var kept := Without(subs, n);
      if Valid() {
        WithoutNoDup(subs, n);
      }
      subs := kept;
      writes := writes + 1;
    }

    /** `get_all`: the listed numbers, in order. */
    method GetAll() returns (r: seq<string>)
      ensures r == subs
    {
      r := subs;
    }

    /** `count`: how many numbers `get_all` returns, which for a valid store is the number
        of distinct subscribers. */
    method Count() returns (n: nat)
      ensures n == |subs|
      ensures Valid() ==> n == |set x | x in subs|
    {
      var all := GetAll();
      n := |all|;
      if Valid() {
        NoDupDistinct(subs);
      }
    }
  }
}
