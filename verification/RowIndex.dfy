// The string keys and the hash index shared by the two table models: rows in a vector,
// and a map from key to row number that the models rebuild or extend as rows change.

module RowIndex {

  import opened Prelude

  function UserKey(connection: nat, sessionId: string): string {
    Decimal(connection) + "\n" + sessionId
  }

  function ResultKey(connection: nat, sessionId: string, fileName: string): string {
    Decimal(connection) + "\n" + sessionId + "\n" + fileName
  }

  lemma {:induction false} DecimalInjective(m: nat, n: nat)
    requires Decimal(m) == Decimal(n)
    ensures m == n
  {
    var a, b := Decimal(m), Decimal(n);
    assert a[|a| - 1] == '0' + (m % 10) as char;
    assert b[|b| - 1] == '0' + (n % 10) as char;
    assert |a| == 1 <==> m < 10;
    assert |b| == 1 <==> n < 10;
    if m >= 10 {
      assert Decimal(m / 10) == a[..|a| - 1] && Decimal(n / 10) == b[..|b| - 1];
      DecimalInjective(m / 10, n / 10);
    }
  }

  /** A line that contains no newline can be told apart from what follows it. */
  lemma FirstLine(a: string, x: string, b: string, y: string)
    requires '\n' !in a && '\n' !in b && a + "\n" + x == b + "\n" + y
    ensures a == b && x == y
  {
    var s := a + "\n" + x;
    assert s[|a|] == '\n' && s[|b|] == '\n';
    assert forall i | 0 <= i < |a| :: s[i] == a[i] && a[i] in a;
    assert forall i | 0 <= i < |b| :: s[i] == b[i] && b[i] in b;
    assert |a| == |b|;
    assert a == s[..|a|] && b == s[..|b|];
    assert x == s[|a| + 1..] && y == s[|b| + 1..];
  }

  /** Users of different connections, or different users of one, never share a key. */
  lemma UserKeyInjective(c: nat, s: string, d: nat, t: string)
    requires UserKey(c, s) == UserKey(d, t)
    ensures c == d && s == t
  {
    FirstLine(Decimal(c), s, Decimal(d), t);
    DecimalInjective(c, d);
  }

  /** The result key is injective as long as session IDs contain no newline; what the file
      names contain does not matter. */
  lemma ResultKeyInjective(c: nat, s: string, f: string, d: nat, t: string, g: string)
    requires '\n' !in s && '\n' !in t
    requires ResultKey(c, s, f) == ResultKey(d, t, g)
    ensures c == d && s == t && f == g
  {
    assert ResultKey(c, s, f) == Decimal(c) + "\n" + (s + "\n" + f);
    assert ResultKey(d, t, g) == Decimal(d) + "\n" + (t + "\n" + g);
    FirstLine(Decimal(c), s + "\n" + f, Decimal(d), t + "\n" + g);
    FirstLine(s, f, t, g);
    DecimalInjective(c, d);
  }

  /** Two sessions can share a key, exactly: for different session IDs there are file names
      with which they do if and only if both are on the same connection and one ID goes on
      after the other with a newline. */
  lemma SessionsCollide(c: nat, s: string, d: nat, t: string)
    requires s != t
    ensures (exists f, g :: ResultKey(c, s, f) == ResultKey(d, t, g))
       <==> c == d && (s + "\n" <= t || t + "\n" <= s)
  {
    if f, g :| ResultKey(c, s, f) == ResultKey(d, t, g) {
      assert ResultKey(c, s, f) == Decimal(c) + "\n" + (s + "\n" + f);
      assert ResultKey(d, t, g) == Decimal(d) + "\n" + (t + "\n" + g);
      FirstLine(Decimal(c), s + "\n" + f, Decimal(d), t + "\n" + g);
      DecimalInjective(c, d);
      ShorterGoesOn(s, f, t, g);
    }
    if c == d && s + "\n" <= t {
      var rest := t[|s| + 1..];
      assert t == s + "\n" + rest;
      NewlineInSessionCollides(c, s, rest, "");
    }
    if c == d && t + "\n" <= s {
      var rest := s[|t| + 1..];
      assert s == t + "\n" + rest;
      NewlineInSessionCollides(c, t, rest, "");
    }
  }

  lemma ShorterGoesOn(s: string, f: string, t: string, g: string)
    requires s != t && s + "\n" + f == t + "\n" + g
    ensures s + "\n" <= t || t + "\n" <= s
  {
    var all := s + "\n" + f;
    assert s == all[..|s|] && t == all[..|t|];
    assert all[..|s| + 1] == s + "\n" && all[..|t| + 1] == t + "\n";
  }

  /** With a newline in a session ID two different results do share a key. */
  lemma NewlineInSessionCollides(c: nat, s: string, t: string, f: string)
    ensures ResultKey(c, s + "\n" + t, f) == ResultKey(c, s, t + "\n" + f)
    ensures s + "\n" + t != s
  {
    var d := Decimal(c) + "\n";
    assert ResultKey(c, s + "\n" + t, f) == d + s + "\n" + t + "\n" + f;
    assert ResultKey(c, s, t + "\n" + f) == d + s + "\n" + t + "\n" + f;
    assert |s + "\n" + t| > |s|;
  }

  /** What _RebuildIndex leaves in rowsByKey: later rows overwrite earlier ones. */
  function LastRows(keys: seq<string>): (index: map<string, nat>)
  {
    if keys == [] then map[]
    else
      var last := |keys| - 1;
      LastRows(keys[..last])[keys[last] := last]
  }

  /** The index has exactly the keys present and maps each to the last row with it. */
  lemma {:induction false} IndexAgrees(keys: seq<string>)
    ensures forall k :: k in LastRows(keys) <==> k in keys
    ensures forall k | k in LastRows(keys) ::
      var row := LastRows(keys)[k];
      && row < |keys| && keys[row] == k
      && forall j | row < j < |keys| :: keys[j] != k
  {
    if keys != [] {
      var last := |keys| - 1;
      IndexAgrees(keys[..last]);
      assert keys == keys[..last] + [keys[last]];
      forall k | k in LastRows(keys)
        ensures var row := LastRows(keys)[k];
          row < |keys| && keys[row] == k && forall j | row < j < |keys| :: keys[j] != k
      {
        assert k != keys[last] ==> k in LastRows(keys[..last]);
        assert forall j | 0 <= j < last :: keys[..last][j] == keys[j];
      }
    }
  }

  /** The index finds every row, so it is a bijection, exactly when no two rows share a key. */
  lemma {:induction false} IndexFindsEveryRow(keys: seq<string>)
    ensures Distinct(keys) <==> forall i | 0 <= i < |keys| :: keys[i] in LastRows(keys) && LastRows(keys)[keys[i]] == i
  {
    IndexAgrees(keys);
    forall i | 0 <= i < |keys| ensures keys[i] in LastRows(keys) && keys[i] in keys {
      assert keys[i] in keys;
    }
    if Distinct(keys) {
      forall i | 0 <= i < |keys| ensures LastRows(keys)[keys[i]] == i {
        var row := LastRows(keys)[keys[i]];
        assert keys[row] == keys[i];
      }
    }
  }

  lemma EmptyIndex()
    ensures LastRows([]) == map[]
  {
  }

  lemma IndexSnoc(keys: seq<string>, k: string)
    ensures LastRows(keys + [k]) == LastRows(keys)[k := |keys|]
  {
    assert (keys + [k])[..|keys|] == keys;
  }

  // ----- Distinct keys -----

  lemma DistinctSnoc(keys: seq<string>, k: string)
    ensures Distinct(keys + [k]) <==> Distinct(keys) && k !in keys
  {
    var all := keys + [k];
    if Distinct(all) {
      assert forall i | 0 <= i < |keys| :: all[i] == keys[i] && all[i] != all[|keys|];
    }
  }

  lemma DistinctAppend(a: seq<string>, b: seq<string>)
    requires forall k | k in b :: k !in a
    ensures Distinct(a + b) <==> Distinct(a) && Distinct(b)
  {
    var all := a + b;
    if Distinct(all) {
      assert forall i | 0 <= i < |a| :: all[i] == a[i];
      assert forall i | 0 <= i < |b| :: all[|a| + i] == b[i];
    }
    if Distinct(a) && Distinct(b) {
      assert forall j | |a| <= j < |all| :: all[j] in b;
      assert forall i | 0 <= i < |a| :: all[i] in a;
    }
  }

  lemma DistinctWithout(a: seq<string>, k: string, c: seq<string>)
    requires Distinct(a + [k] + c)
    ensures Distinct(a + c) && k !in a && k !in c
  {
    var all := a + [k] + c;
    assert forall i | 0 <= i < |a| :: all[i] == a[i];
    assert forall i | 0 <= i < |c| :: all[|a| + 1 + i] == c[i];
    assert all[|a|] == k;
  }

  // ----- Rows and their keys -----

  function Keys<T>(key: T -> string, rows: seq<T>): (keys: seq<string>)
    ensures |keys| == |rows| && forall i | 0 <= i < |rows| :: keys[i] == key(rows[i])
  {
    if rows == [] then [] else Keys(key, rows[..|rows| - 1]) + [key(rows[|rows| - 1])]
  }

  lemma KeyIsThere<T>(key: T -> string, rows: seq<T>, k: string)
    ensures k in Keys(key, rows) <==> exists e :: e in rows && key(e) == k
  {
    if k in Keys(key, rows) {
      var i :| 0 <= i < |rows| && Keys(key, rows)[i] == k;
      assert rows[i] in rows && key(rows[i]) == k;
    }
    if e :| e in rows && key(e) == k {
      var i :| 0 <= i < |rows| && rows[i] == e;
      assert Keys(key, rows)[i] == k;
    }
  }

  lemma KeysSnoc<T>(key: T -> string, rows: seq<T>, e: T)
    ensures Keys(key, rows + [e]) == Keys(key, rows) + [key(e)]
  {
  }

  lemma KeysTake<T>(key: T -> string, rows: seq<T>, n: nat)
    requires n <= |rows|
    ensures Keys(key, rows[..n]) == Keys(key, rows)[..n]
  {
  }

  lemma KeysAppend<T>(key: T -> string, a: seq<T>, b: seq<T>)
    ensures Keys(key, a + b) == Keys(key, a) + Keys(key, b)
  {
  }

  lemma SameKeys<T>(key: T -> string, a: seq<T>, b: seq<T>)
    requires |a| == |b| && forall i | 0 <= i < |a| :: key(a[i]) == key(b[i])
    ensures Keys(key, a) == Keys(key, b)
  {
  }

  /** Taking one row out of distinct ones takes every row with its key. */
  lemma CutOut<T>(key: T -> string, a: seq<T>, x: T, b: seq<T>)
    requires Distinct(Keys(key, a + [x] + b))
    ensures Distinct(Keys(key, a + b))
    ensures forall e :: e in a + b <==> e in a + [x] + b && key(e) != key(x)
  {
    hide Keys, Distinct;
    KeysAppend(key, a + [x], b);
    KeysSnoc(key, a, x);
    KeysAppend(key, a, b);
    DistinctWithout(Keys(key, a), key(x), Keys(key, b));
    KeyIsThere(key, a, key(x));
    KeyIsThere(key, b, key(x));
  }

  /** Removal by key: the row that the index gives, if any. */
  function RemoveKey<T>(key: T -> string, rows: seq<T>, k: string): seq<T> {
    var index := LastRows(Keys(key, rows));
    IndexAgrees(Keys(key, rows));
    if k in index then rows[..index[k]] + rows[index[k] + 1..] else rows
  }

  lemma RemovedRows<T>(key: T -> string, rows: seq<T>, k: string)
    requires Distinct(Keys(key, rows))
    ensures Distinct(Keys(key, RemoveKey(key, rows, k)))
    ensures forall e :: e in RemoveKey(key, rows, k) <==> e in rows && key(e) != k
  {
    hide Keys, LastRows, Distinct;
    var keys := Keys(key, rows);
    IndexAgrees(keys);
    if k in LastRows(keys) {
      var row := LastRows(keys)[k];
      assert keys[row] == key(rows[row]);
      assert rows == rows[..row] + [rows[row]] + rows[row + 1..];
      CutOut(key, rows[..row], rows[row], rows[row + 1..]);
    } else {
      KeyIsThere(key, rows, k);
    }
  }

  // ----- Keeping some of the rows -----

  /** The rows that are not to go, in order. */
  function Without<T>(rows: seq<T>, goes: T -> bool): seq<T> {
    if rows == [] then []
    else
      var last := |rows| - 1;
      Without(rows[..last], goes) + if goes(rows[last]) then [] else [rows[last]]
  }

  lemma WithoutSnoc<T>(rows: seq<T>, goes: T -> bool, i: nat)
    requires i < |rows|
    ensures Without(rows[..i + 1], goes) == Without(rows[..i], goes) + if goes(rows[i]) then [] else [rows[i]]
  {
    assert rows[..i + 1][..i] == rows[..i];
  }

  lemma {:induction false} WithoutAll<T>(rows: seq<T>, goes: T -> bool)
    ensures |Without(rows, goes)| <= |rows|
    ensures |Without(rows, goes)| == |rows| ==> Without(rows, goes) == rows
  {
    if rows != [] {
      var last := |rows| - 1;
      WithoutAll(rows[..last], goes);
      assert rows[..last] + [rows[last]] == rows;
    }
  }

  lemma {:induction false} WithoutContents<T>(rows: seq<T>, goes: T -> bool)
    ensures forall e :: e in Without(rows, goes) <==> e in rows && !goes(e)
  {
    if rows != [] {
      var last := |rows| - 1;
      WithoutContents(rows[..last], goes);
      assert rows == rows[..last] + [rows[last]];
    }
  }

  lemma {:induction false} WithoutKeepsDistinct<T>(key: T -> string, rows: seq<T>, goes: T -> bool)
    requires Distinct(Keys(key, rows))
    ensures Distinct(Keys(key, Without(rows, goes)))
  {
    hide Keys, Distinct;
    if rows == [] {
    } else {
      var last := |rows| - 1;
      var kept := Without(rows[..last], goes);
      KeysSnoc(key, rows[..last], rows[last]);
      DistinctSnoc(Keys(key, rows[..last]), key(rows[last]));
      assert rows == rows[..last] + [rows[last]];
      WithoutKeepsDistinct(key, rows[..last], goes);
      WithoutContents(rows[..last], goes);
      KeysSnoc(key, kept, rows[last]);
      DistinctSnoc(Keys(key, kept), key(rows[last]));
      KeyIsThere(key, rows[..last], key(rows[last]));
      KeyIsThere(key, kept, key(rows[last]));
      assert kept + [] == kept;
    }
  }
}
