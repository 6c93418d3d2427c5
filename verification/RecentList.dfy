// The bounded most-recently-used lists kept in the settings (servers, names, statuses).

module RecentList {

  import opened Prelude

  function LowerCase(c: char): char {
    if 'A' <= c <= 'Z' then c - 'A' + 'a' else c
  }

  function Folded(s: string): string {
    if s == "" then "" else Folded(s[..|s| - 1]) + [LowerCase(s[|s| - 1])]
  }

  /** EqualsIgnoreCase */
  predicate SameIgnoringCase(a: string, b: string) { Folded(a) == Folded(b) }

  /** The two cases of one letter. */
  predicate AreCases(a: char, b: char) {
    || ('A' <= a <= 'Z' && b as int == a as int + 32)
    || ('A' <= b <= 'Z' && a as int == b as int + 32)
  }

  /** Two values are the same in any case if and only if they are equally long, and at each
      place have the same character or the two cases of one letter. */
  lemma {:induction false} SameInAnyCase(a: string, b: string)
    ensures SameIgnoringCase(a, b) <==>
      |a| == |b| && forall i | 0 <= i < |a| :: a[i] == b[i] || AreCases(a[i], b[i])
  {
    FoldedLength(a);
    FoldedLength(b);
    if |a| == |b| && a != "" {
      var last := |a| - 1;
      SameInAnyCase(a[..last], b[..last]);
      assert LowerCase(a[last]) == LowerCase(b[last]) <==> a[last] == b[last] || AreCases(a[last], b[last]);
      assert Folded(a)[..last] == Folded(a[..last]) && Folded(b)[..last] == Folded(b[..last]);
    }
  }

  lemma {:induction false} FoldedLength(s: string)
    ensures |Folded(s)| == |s|
  {
    if s != "" {
      FoldedLength(s[..|s| - 1]);
    }
  }

  function NonEmpty(values: seq<string>): seq<string> {
    if values == [] then []
    else
      var v := values[|values| - 1];
      NonEmpty(values[..|values| - 1]) + if v == "" then [] else [v]
  }

  function Removing(values: seq<string>, value: string): seq<string> {
    if values == [] then []
    else
      var v := values[|values| - 1];
      Removing(values[..|values| - 1], value) + if SameIgnoringCase(v, value) then [] else [v]
  }

  function Truncated(values: seq<string>, maxItems: nat): seq<string> {
    if |values| <= maxItems then values else values[..maxItems]
  }

  /** _RememberInList on the stored field. */
  function Remember(stored: seq<string>, value: string, maxItems: nat): seq<string> {
    if value == "" then stored else Truncated([value] + Removing(NonEmpty(stored), value), maxItems)
  }

  function After(history: seq<string>, maxItems: nat): seq<string> {
    if history == [] then []
    else Remember(After(history[..|history| - 1], maxItems), history[|history| - 1], maxItems)
  }

  // ----- The specification: newest first, each spelling once -----

  function Reversed(values: seq<string>): seq<string> {
    if values == [] then [] else [values[|values| - 1]] + Reversed(values[..|values| - 1])
  }

  predicate Seen(values: seq<string>, value: string) {
    exists i | 0 <= i < |values| :: SameIgnoringCase(values[i], value)
  }

  /** The values of which no other spelling comes earlier, in order. */
  function FirstSpellings(values: seq<string>): seq<string> {
    if values == [] then []
    else
      var before, v := values[..|values| - 1], values[|values| - 1];
      FirstSpellings(before) + if Seen(before, v) then [] else [v]
  }

  lemma {:induction false} RemovingContents(values: seq<string>, value: string)
    ensures forall v :: v in Removing(values, value) <==> v in values && !SameIgnoringCase(v, value)
    ensures |Removing(values, value)| <= |values|
  {
    if values != [] {
      var last := |values| - 1;
      RemovingContents(values[..last], value);
      assert values == values[..last] + [values[last]];
    }
  }

  lemma {:induction false} RemovingAppend(a: seq<string>, b: seq<string>, value: string)
    ensures Removing(a + b, value) == Removing(a, value) + Removing(b, value)
  {
    if b == [] {
      assert a + b == a;
    } else {
      var last := |b| - 1;
      assert (a + b)[..|a + b| - 1] == a + b[..last];
      RemovingAppend(a, b[..last], value);
    }
  }

  lemma {:induction false} RemovingNothing(values: seq<string>, value: string)
    requires !Seen(values, value)
    ensures Removing(values, value) == values
  {
    if values != [] {
      var last := |values| - 1;
      assert forall i | 0 <= i < last :: values[..last][i] == values[i];
      RemovingNothing(values[..last], value);
      assert values == values[..last] + [values[last]];
    }
  }

  /** Each spelling once, whatever its case. */
  ghost predicate OncePerSpelling(values: seq<string>) {
    forall i, j | 0 <= i < j < |values| :: !SameIgnoringCase(values[i], values[j])
  }

  lemma {:induction false} RemovingOne(values: seq<string>, value: string)
    requires OncePerSpelling(values)
    ensures |Removing(values, value)| >= |values| - 1
  {
    if values != [] {
      var last := |values| - 1;
      var before := values[..last];
      if SameIgnoringCase(values[last], value) {
        assert forall i | 0 <= i < last :: !SameIgnoringCase(values[i], values[last]);
        RemovingNothing(before, value);
      } else {
        RemovingOne(before, value);
      }
    }
  }

  lemma {:induction false} FirstSpellingsSeen(values: seq<string>)
    ensures forall v :: Seen(FirstSpellings(values), v) <==> Seen(values, v)
    ensures OncePerSpelling(FirstSpellings(values))
  {
    if values != [] {
      var before, v := values[..|values| - 1], values[|values| - 1];
      var first := FirstSpellings(before);
      FirstSpellingsSeen(before);
      assert values == before + [v] && first + [] == first;
      hide Folded;
      forall x ensures Seen(values, x) <==> Seen(FirstSpellings(values), x) {
        SeenSnoc(before, v, x);
        SeenSnoc(first, v, x);
        if SameIgnoringCase(v, x) && Seen(before, v) {
          var i :| 0 <= i < |before| && SameIgnoringCase(before[i], v);
          assert SameIgnoringCase(before[i], x);
        }
      }
      if !Seen(before, v) {
        assert !Seen(first, v);
      }
    }
  }

  lemma SeenSnoc(values: seq<string>, v: string, x: string)
    ensures Seen(values + [v], x) <==> Seen(values, x) || SameIgnoringCase(v, x)
  {
    var all := values + [v];
    if i :| 0 <= i < |values| && SameIgnoringCase(values[i], x) {
      assert all[i] == values[i];
    }
    if SameIgnoringCase(v, x) {
      assert all[|values|] == v;
    }
  }

  lemma FirstSpellingsSnoc(values: seq<string>, w: string)
    ensures FirstSpellings(values + [w]) ==
      if Seen(values, w) then FirstSpellings(values) else FirstSpellings(values) + [w]
  {
    assert (values + [w])[..|values|] == values;
    assert FirstSpellings(values) + [] == FirstSpellings(values);
  }

  /** Putting a value in front leaves out its other spellings further back. */
  lemma {:induction false} FirstSpellingsCons(v: string, values: seq<string>)
    ensures FirstSpellings([v] + values) == [v] + Removing(FirstSpellings(values), v)
  {
    hide SameIgnoringCase, Seen, Removing, FirstSpellings;
    if values == [] {
      FirstSpellingsCons0(v);
      assert [v] + values == [v];
    } else {
      var before, w := values[..|values| - 1], values[|values| - 1];
      var first := FirstSpellings(before);
      assert [v] + values == ([v] + before) + [w] && values == before + [w];
      FirstSpellingsCons(v, before);
      FirstSpellingsSnoc([v] + before, w);
      FirstSpellingsSnoc(before, w);
      SeenCons(v, before, w);
      RemovingAppend(first, [w], v);
      RemovingSingle(w, v);
    }
  }

  lemma FirstSpellingsCons0(v: string)
    ensures FirstSpellings([v]) == [v] && FirstSpellings([]) == [] && Removing([], v) == []
  {
    assert [v][..0] == [];
    FirstSpellingsSnoc([], v);
    assert [] + [v] == [v];
  }

  lemma RemovingSingle(w: string, v: string)
    ensures Removing([w], v) == if SameIgnoringCase(v, w) then [] else [w]
  {
    assert [w][..0] == [];
  }

  lemma SeenCons(v: string, values: seq<string>, x: string)
    ensures Seen([v] + values, x) <==> SameIgnoringCase(v, x) || Seen(values, x)
  {
    var all := [v] + values;
    if i :| 0 <= i < |values| && SameIgnoringCase(values[i], x) {
      assert all[i + 1] == values[i];
    }
    if SameIgnoringCase(v, x) {
      assert all[0] == v;
    }
  }

  /** Cutting the list off before the next value goes in front costs nothing that cutting
      it off afterwards would keep. */
  lemma CutBeforeOrAfter(values: seq<string>, v: string, maxItems: nat)
    requires OncePerSpelling(values)
    ensures Truncated([v] + Removing(Truncated(values, maxItems), v), maxItems)
         == Truncated([v] + Removing(values, v), maxItems)
  {
    if |values| > maxItems {
      var front, back := values[..maxItems], values[maxItems..];
      assert values == front + back;
      RemovingAppend(front, back, v);
      hide Removing, SameIgnoringCase;
      assert OncePerSpelling(front);
      RemovingContents(front, v);
      var short, long := [v] + Removing(front, v), [v] + Removing(values, v);
      assert long == short + Removing(back, v);
      RemovingOne(front, v);
      assert |short| >= maxItems;
      assert short[..maxItems] == long[..maxItems];
    }
  }

  lemma {:induction false} NonEmptyAlready(values: seq<string>)
    requires forall v | v in values :: v != ""
    ensures NonEmpty(values) == values
  {
    if values != [] {
      var last := |values| - 1;
      assert values == values[..last] + [values[last]];
      assert values[last] in values && forall x | x in values[..last] :: x in values;
      NonEmptyAlready(values[..last]);
    }
  }

  lemma {:induction false} FirstSpellingsFrom(values: seq<string>)
    ensures forall v | v in FirstSpellings(values) :: v in values
  {
    if values != [] {
      var last := |values| - 1;
      FirstSpellingsFrom(values[..last]);
      assert values == values[..last] + [values[last]];
    }
  }

  function Newest(history: seq<string>): seq<string> { FirstSpellings(Reversed(NonEmpty(history))) }

  lemma {:induction false} ReversedContents(values: seq<string>)
    ensures forall v :: v in Reversed(values) <==> v in values
  {
    if values != [] {
      var last := |values| - 1;
      ReversedContents(values[..last]);
      assert values == values[..last] + [values[last]];
    }
  }

  lemma {:induction false} NonEmptyContents(values: seq<string>)
    ensures forall v :: v in NonEmpty(values) <==> v in values && v != ""
  {
    if values != [] {
      var last := |values| - 1;
      NonEmptyContents(values[..last]);
      assert values == values[..last] + [values[last]];
    }
  }

  lemma NewestNotEmpty(history: seq<string>)
    ensures forall v | v in Newest(history) :: v in history && v != ""
  {
    NonEmptyContents(history);
    ReversedContents(NonEmpty(history));
    FirstSpellingsFrom(Reversed(NonEmpty(history)));
  }

  lemma RememberStep(before: seq<string>, v: string, maxItems: nat)
    requires After(before, maxItems) == Truncated(Newest(before), maxItems)
    ensures Remember(After(before, maxItems), v, maxItems) == Truncated(Newest(before + [v]), maxItems)
  {
    hide Newest, Removing, After, NonEmpty, OncePerSpelling, Truncated;
    if v != "" {
      NewestGrows(before, v);
      StoredNotEmpty(before, maxItems);
      NonEmptyAlready(After(before, maxItems));
      CutBeforeOrAfter(Newest(before), v, maxItems);
    } else {
      EmptyChangesNothing(before);
    }
  }

  /** After any history on a field that starts empty, the stored list is the history read
      backwards, without the empty values, keeping the newest spelling of each value, cut
      off at maxItems once at the end. */
  lemma {:induction false} StoredListIsRecentHistory(history: seq<string>, maxItems: nat)
    ensures After(history, maxItems) == Truncated(Newest(history), maxItems)
  {
    if history == [] {
      assert Newest([]) == [];
    } else {
      var before, v := history[..|history| - 1], history[|history| - 1];
      StoredListIsRecentHistory(before, maxItems);
      AfterSnoc(history, maxItems);
      RememberStep(before, v, maxItems);
      assert before + [v] == history;
    }
  }

  lemma EmptyChangesNothing(before: seq<string>)
    ensures Newest(before + [""]) == Newest(before)
  {
    assert (before + [""])[..|before|] == before;
    assert NonEmpty(before + [""]) == NonEmpty(before) + [] == NonEmpty(before);
  }

  lemma AfterSnoc(history: seq<string>, maxItems: nat)
    requires history != []
    ensures After(history, maxItems)
         == Remember(After(history[..|history| - 1], maxItems), history[|history| - 1], maxItems)
  {
  }

  lemma NewestGrows(before: seq<string>, v: string)
    requires v != ""
    ensures Newest(before + [v]) == [v] + Removing(Newest(before), v)
    ensures OncePerSpelling(Newest(before))
  {
    hide FirstSpellings, Removing;
    var values := NonEmpty(before);
    assert (before + [v])[..|before|] == before && (values + [v])[..|values|] == values;
    assert NonEmpty(before + [v]) == values + [v];
    assert Reversed(values + [v]) == [v] + Reversed(values);
    FirstSpellingsCons(v, Reversed(values));
    FirstSpellingsSeen(Reversed(values));
  }

  lemma StoredNotEmpty(before: seq<string>, maxItems: nat)
    requires After(before, maxItems) == Truncated(Newest(before), maxItems)
    ensures forall v | v in After(before, maxItems) :: v != ""
  {
    NewestNotEmpty(before);
    hide Newest, After;
    assert forall v | v in Truncated(Newest(before), maxItems) :: v in Newest(before);
  }

  /** What a reader of the list relies on: never too long, no value twice in any case, no
      empty value, nothing that was not in the history, and the last value first. */
  lemma StoredListIsSound(history: seq<string>, maxItems: nat)
    ensures var stored := After(history, maxItems);
      && |stored| <= maxItems && OncePerSpelling(stored)
      && (forall v | v in stored :: v in history && v != "")
      && (history != [] && history[|history| - 1] != "" && maxItems > 0 ==>
            stored != [] && stored[0] == history[|history| - 1])
  {
    StoredListIsRecentHistory(history, maxItems);
    FirstSpellingsSeen(Reversed(NonEmpty(history)));
    NewestNotEmpty(history);
  }

  // ----- The settings object, step by step -----

  lemma NonEmptySnoc(values: seq<string>, i: nat)
    requires i < |values|
    ensures NonEmpty(values[..i + 1]) == NonEmpty(values[..i]) + if values[i] == "" then [] else [values[i]]
  {
    assert values[..i + 1][..i] == values[..i];
  }

  lemma RemovingHead(values: seq<string>, value: string, i: nat)
    requires i < |values|
    ensures Removing(values[i..], value)
         == (if SameIgnoringCase(value, values[i]) then [] else [values[i]]) + Removing(values[i + 1..], value)
  {
    assert values[i..] == [values[i]] + values[i + 1..];
    RemovingAppend([values[i]], values[i + 1..], value);
    RemovingSingle(values[i], value);
  }

  class ApplicationSettings {
    var fields: map<string, seq<string>>

    function Stored(fieldName: string): seq<string>
      reads this
    {
      if fieldName in fields then fields[fieldName] else []
    }

    constructor ()
      ensures fields == map[]
    {
      fields := map[];
    }

    method GetStringList(fieldName: string) returns (values: seq<string>)
      ensures values == NonEmpty(Stored(fieldName))
    {
      values := [];
      var stored := Stored(fieldName);
      for i := 0 to |stored|
        invariant values == NonEmpty(stored[..i])
      {
        NonEmptySnoc(stored, i);
        if stored[i] != "" {
          values := values + [stored[i]];
        }
      }
      assert stored[..|stored|] == stored;
    }

    method SetStringList(fieldName: string, values: seq<string>)
      modifies this
      ensures Stored(fieldName) == values
      ensures fields - {fieldName} == old(fields) - {fieldName}
    {
      fields := fields - {fieldName};
      for i := 0 to |values|
        invariant Stored(fieldName) == values[..i]
        invariant fields - {fieldName} == old(fields) - {fieldName}
      {
        assert values[..i + 1] == values[..i] + [values[i]];
        fields := fields[fieldName := Stored(fieldName) + [values[i]]];
      }
    }

    method RememberInList(fieldName: string, value: string, maxItems: nat)
      modifies this
      ensures Stored(fieldName) == Remember(old(Stored(fieldName)), value, maxItems)
      ensures fields - {fieldName} == old(fields) - {fieldName}
    {
      if value == "" {
        return;
      }
      var values := GetStringList(fieldName);
      values := Promoted(values, value);
      while |values| > maxItems
        invariant Truncated(values, maxItems)
               == Truncated([value] + Removing(NonEmpty(old(Stored(fieldName))), value), maxItems)
      {
        values := values[..|values| - 1];
      }
      SetStringList(fieldName, values);
    }

    /** Walks the list backwards, removing every spelling of the value, then puts it first. */
    static method Promoted(before: seq<string>, value: string) returns (values: seq<string>)
      ensures values == [value] + Removing(before, value)
    {
      values := before;
      ghost var kept: seq<string> := [];
      var i := |values| - 1;
      while i >= 0
        invariant -1 <= i < |before|
        invariant kept == Removing(before[i + 1..], value)
        invariant values == before[..i + 1] + kept
      {
        hide Removing, SameIgnoringCase;
        RemovingHead(before, value, i);
        DropAt(before, i, kept);
        if SameIgnoringCase(value, values[i]) {
          values := values[..i] + values[i + 1..];
        } else {
          kept := [before[i]] + kept;
        }
        i := i - 1;
      }
      assert before[0..] == before;
      values := [value] + values;
    }
  }
}
