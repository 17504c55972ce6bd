/** In-place list compaction: the result slice shares the array it is read from. */
module Compaction {
  /** First occurrence of every item, in order. */
  function Firsts(items: seq<string>): seq<string> {
    if items == [] then []
    else
      var front, last := Firsts(items[..|items| - 1]), items[|items| - 1];
      if last in items[..|items| - 1] then front else front + [last]
  }

  /** What "keeps exactly the first occurrences, in order" says without recursion: `kept` picks
  the items at increasing positions, and a position is picked exactly when its item is new. */
  ghost predicate KeepsFirsts(items: seq<string>, kept: seq<string>, at: seq<nat>) {
    && |at| == |kept|
    && (forall i, j | 0 <= i < j < |at| :: at[i] < at[j])
    && (forall i | 0 <= i < |at| :: at[i] < |items| && items[at[i]] == kept[i])
    && (forall p | 0 <= p < |items| :: p in at <==> items[p] !in items[..p])
  }

  lemma KeepNext(items: seq<string>, item: string, kept: seq<string>, at: seq<nat>)
    requires KeepsFirsts(items, kept, at)
    ensures var all := items + [item];
            if item in items then KeepsFirsts(all, kept, at)
            else KeepsFirsts(all, kept + [item], at + [|items|])
  {
    var all := items + [item];
    forall p | 0 <= p < |items| ensures all[..p] == items[..p] && all[p] == items[p] {
    }
    assert all[..|items|] == items;
  }

  lemma KeepNone()
    ensures KeepsFirsts([], [], [])
  {
  }

  lemma {:induction false} FirstsKeepsFirsts(items: seq<string>) returns (at: seq<nat>)
    ensures KeepsFirsts(items, Firsts(items), at)
  {
    hide KeepsFirsts;
    at := [];
    if items == [] {
      KeepNone();
    } else {
      var front, last := items[..|items| - 1], items[|items| - 1];
      at := FirstsKeepsFirsts(front);
      KeepNext(front, last, Firsts(front), at);
      assert front + [last] == items;
      if last !in front {
        at := at + [|front|];
      }
    }
  }

  /** The kept items are the listed items, each once. */
  lemma {:induction false} FirstsIsTheSet(items: seq<string>)
    ensures forall i, j | 0 <= i < j < |Firsts(items)| :: Firsts(items)[i] != Firsts(items)[j]
    ensures forall x :: x in Firsts(items) <==> x in items
  {
    if items != [] {
      var front, last := items[..|items| - 1], items[|items| - 1];
      FirstsIsTheSet(front);
      assert items == front + [last];
    }
  }

  /** uniqueStrings: `n` is the length of the returned slice. The rest of the array keeps the
  items it had. */
  method UniqueStrings(items: array<string>) returns (n: nat)
    modifies items
    ensures n <= items.Length
    ensures items[..n] == Firsts(old(items[..]))
    ensures items[n..] == old(items[n..])
  {
    n := 0;
    var seen: set<string> := {};
    for i := 0 to items.Length
      invariant n <= i
      invariant items[n..] == old(items[n..])
      invariant items[..n] == Firsts(old(items[..])[..i])
      invariant forall x :: x in seen <==> x in old(items[..])[..i]
    {
      var item := items[i];
      assert item == items[n..][i - n] == old(items[..])[i];
      assert old(items[..])[..i + 1][..i] == old(items[..])[..i];
      if item !in seen {
        seen := seen + {item};
        items[n] := item;
        n := n + 1;
      }
    }
    assert old(items[..])[..items.Length] == old(items[..]);
  }

  /** Trimmed items that are not blank, in order. */
  function Trimmed(trim: string -> string, items: seq<string>): seq<string> {
    if items == [] then []
    else
      var front, value := Trimmed(trim, items[..|items| - 1]), trim(items[|items| - 1]);
      if value == "" then front else front + [value]
  }

  /** trimList, likewise over its own array. */
  method TrimList(trim: string -> string, items: array<string>) returns (n: nat)
    modifies items
    ensures n <= items.Length
    ensures items[..n] == Trimmed(trim, old(items[..]))
    ensures items[n..] == old(items[n..])
  {
    n := 0;
    for i := 0 to items.Length
      invariant n <= i
      invariant items[n..] == old(items[n..])
      invariant items[..n] == Trimmed(trim, old(items[..])[..i])
    {
      var value := trim(items[i]);
      assert items[i] == items[n..][i - n] == old(items[..])[i];
      assert old(items[..])[..i + 1][..i] == old(items[..])[..i];
      if value != "" {
        items[n] := value;
        n := n + 1;
      }
    }
    assert old(items[..])[..items.Length] == old(items[..]);
  }

  /** An item is dropped exactly when its trimmed text is empty, and otherwise kept trimmed. */
  lemma TrimmedSnoc(trim: string -> string, items: seq<string>, item: string)
    ensures Trimmed(trim, items + [item])
         == Trimmed(trim, items) + if trim(item) == "" then [] else [trim(item)]
  {
    assert (items + [item])[..|items|] == items;
  }

  /** The kept texts are the trimmed items at the increasing positions `at`, which are exactly those
  of the items that are not blank. */
  ghost predicate KeepsTexts(trim: string -> string, items: seq<string>, kept: seq<string>, at: seq<nat>) {
    && |at| == |kept|
    && (forall k | 0 <= k < |at| :: at[k] < |items| && kept[k] == trim(items[at[k]]) != "")
    && (forall k, l | 0 <= k < l < |at| :: at[k] < at[l])
    && (forall i: nat | i < |items| && trim(items[i]) != "" :: i in at)
  }

  lemma {:induction false} TrimmedKeepsTexts(trim: string -> string, items: seq<string>) returns (at: seq<nat>)
    ensures KeepsTexts(trim, items, Trimmed(trim, items), at)
  {
    at := [];
    if items != [] {
      var front, last := items[..|items| - 1], items[|items| - 1];
      at := TrimmedKeepsTexts(trim, front);
      TrimmedSnoc(trim, front, last);
      assert items == front + [last];
      TextsNext(trim, front, last, Trimmed(trim, front), at);
      if trim(last) != "" {
        at := at + [|front|];
      }
    }
  }

  lemma TextsNext(trim: string -> string, items: seq<string>, last: string, kept: seq<string>, at: seq<nat>)
    requires KeepsTexts(trim, items, kept, at)
    ensures if trim(last) == "" then KeepsTexts(trim, items + [last], kept, at)
            else KeepsTexts(trim, items + [last], kept + [trim(last)], at + [|items|])
  {
    var all := items + [last];
    forall i: nat | i < |all| && trim(all[i]) != "" ensures i in at + [|items|] {
      assert i < |items| ==> all[i] == items[i];
    }
  }

  /** Trimming a trimmed list changes nothing, for every trim that is stable on its results. */
  lemma {:induction false} TrimmedTwice(trim: string -> string, items: seq<string>)
    requires forall s :: trim(trim(s)) == trim(s)
    ensures Trimmed(trim, Trimmed(trim, items)) == Trimmed(trim, items)
  {
    if items != [] {
      var n := |items| - 1;
      TrimmedTwice(trim, items[..n]);
      var front, value := Trimmed(trim, items[..n]), trim(items[n]);
      assert (front + [value])[..|front|] == front;
      assert trim(value) == value;
    }
  }
}
