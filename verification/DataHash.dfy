/** The text hashed for a Secret or a ConfigMap: keys in order, each followed by its value. */
module DataHash {
  /** Byte order on texts, as sort.Strings uses. */
  predicate Leq(a: string, b: string) {
    |a| == 0 || (|b| > 0 && (a[0] < b[0] || (a[0] == b[0] && Leq(a[1..], b[1..]))))
  }

  lemma {:induction false} LeqTotal(a: string, b: string)
    ensures Leq(a, b) || Leq(b, a)
    ensures Leq(a, b) && Leq(b, a) ==> a == b
  {
    if |a| > 0 && |b| > 0 && a[0] == b[0] {
      LeqTotal(a[1..], b[1..]);
      assert a == [a[0]] + a[1..] && b == [b[0]] + b[1..];
    }
  }

  lemma {:induction false} LeqTransitive(a: string, b: string, c: string)
    requires Leq(a, b) && Leq(b, c)
    ensures Leq(a, c)
  {
    if |a| > 0 && a[0] == b[0] && b[0] == c[0] {
      LeqTransitive(a[1..], b[1..], c[1..]);
    }
  }

  ghost predicate IsLeast(k: string, keys: set<string>) {
    k in keys && forall x :: x in keys ==> Leq(k, x)
  }

  lemma {:induction false} LeastExists(keys: set<string>)
    requires keys != {}
    ensures exists k :: IsLeast(k, keys)
    decreases keys
  {
    var x :| x in keys;
    LeqTotal(x, x);
    if keys == {x} {
      assert IsLeast(x, keys);
    } else {
      LeastExists(keys - {x});
      var y :| IsLeast(y, keys - {x});
      LeqTotal(x, y);
      var k := if Leq(x, y) then x else y;
      forall z | z in keys ensures Leq(k, z) {
        if z != x && k == x {
          LeqTransitive(x, y, z);
        }
      }
      assert IsLeast(k, keys);
    }
  }

  ghost function Least(keys: set<string>): (k: string)
    requires keys != {}
    ensures IsLeast(k, keys)
  {
    LeastExists(keys);
    var k :| IsLeast(k, keys);
    k
  }

  /** The keys in ascending order: a function of the set alone. */
  ghost function SortedKeys(keys: set<string>): seq<string> {
    if keys == {} then [] else [Least(keys)] + SortedKeys(keys - {Least(keys)})
  }

  ghost function InputOver(order: seq<string>, data: map<string, string>): string
    requires forall k :: k in order ==> k in data
  {
    if |order| == 0 then "" else order[0] + data[order[0]] + InputOver(order[1..], data)
  }

  lemma {:induction false} SortedKeysAreTheKeys(keys: set<string>)
    ensures forall k :: k in SortedKeys(keys) <==> k in keys
    decreases keys
  {
    if keys != {} {
      SortedKeysAreTheKeys(keys - {Least(keys)});
    }
  }

  /** The pre-image of the content hash, defined without any iteration order. */
  ghost function HashInput(data: map<string, string>): string {
    SortedKeysAreTheKeys(data.Keys);
    InputOver(SortedKeys(data.Keys), data)
  }

  // ---- the code: collect the keys in iteration order, sort, concatenate ----

  ghost predicate Ascending(s: seq<string>) {
    forall i, j :: 0 <= i < j < |s| ==> Leq(s[i], s[j])
  }

  ghost predicate Distinct(s: seq<string>) {
    forall i, j :: 0 <= i < j < |s| ==> s[i] != s[j]
  }

  ghost function Elements(s: seq<string>): set<string> {
    set k | k in s
  }

  /** An ascending sequence without repetition is the sorted sequence of its elements. */
  lemma {:induction false} AscendingIsUnique(s: seq<string>)
    requires Ascending(s) && Distinct(s)
    ensures s == SortedKeys(Elements(s))
  {
    if |s| > 0 {
      var rest := s[1..];
      assert s == [s[0]] + rest;
      assert s[0] in Elements(s);
      LeqTotal(s[0], s[0]);
      assert IsLeast(s[0], Elements(s)) by {
        forall x | x in Elements(s) ensures Leq(s[0], x) {
          var i :| 0 <= i < |s| && s[i] == x;
        }
      }
      LeqTotal(s[0], Least(Elements(s)));
      assert Elements(rest) == Elements(s) - {s[0]} by {
        forall x | x in Elements(s) && x != s[0] ensures x in rest {}
        forall i | 0 <= i < |rest| ensures rest[i] != s[0] {
          assert rest[i] == s[i + 1];
        }
      }
      AscendingIsUnique(rest);
    }
  }

  function Insert(k: string, s: seq<string>): seq<string> {
    if |s| == 0 || Leq(k, s[0]) then [k] + s else [s[0]] + Insert(k, s[1..])
  }

  lemma {:induction false} InsertKeepsOrder(k: string, s: seq<string>)
    requires Ascending(s) && Distinct(s) && k !in s
    ensures Ascending(Insert(k, s)) && Distinct(Insert(k, s))
    ensures Elements(Insert(k, s)) == Elements(s) + {k}
  {
    if |s| == 0 {
      assert Insert(k, s) == [k];
    } else if Leq(k, s[0]) {
      forall j | 0 <= j < |s| ensures Leq(k, s[j]) {
        if j > 0 { LeqTransitive(k, s[0], s[j]); }
      }
    } else {
      var rest := s[1..];
      LeqTotal(k, s[0]);
      InsertKeepsOrder(k, rest);
      var inner := Insert(k, rest);
      forall x | x in inner ensures Leq(s[0], x) && x != s[0] {
        assert x in Elements(inner);
        if x != k {
          assert x in rest;
          var i :| 0 <= i < |rest| && rest[i] == x;
          assert s[i + 1] == x;
        }
      }
      assert Elements(s) == Elements(rest) + {s[0]};
      assert Elements([s[0]] + inner) == Elements(inner) + {s[0]};
    }
  }

  /** sort.Strings, on keys that are pairwise different. */
  method Sort(keys: seq<string>) returns (sorted: seq<string>)
    requires Distinct(keys)
    ensures sorted == SortedKeys(Elements(keys))
  {
    sorted := [];
    for i := 0 to |keys|
      invariant Ascending(sorted) && Distinct(sorted)
      invariant Elements(sorted) == Elements(keys[..i])
    {
      assert keys[i] !in Elements(keys[..i]);
      InsertKeepsOrder(keys[i], sorted);
      assert Elements(keys[..i + 1]) == Elements(keys[..i]) + {keys[i]};
      sorted := Insert(keys[i], sorted);
    }
    assert keys[..|keys|] == keys;
    AscendingIsUnique(sorted);
  }

  lemma {:induction false} InputOverSnoc(order: seq<string>, k: string, data: map<string, string>)
    requires k in data && forall x :: x in order ==> x in data
    ensures forall x :: x in order + [k] ==> x in data
    ensures InputOver(order + [k], data) == InputOver(order, data) + k + data[k]
  {
    if |order| == 0 {
      assert order + [k] == [k];
      assert InputOver([k][1..], data) == "";
    } else {
      InputOverSnoc(order[1..], k, data);
      assert (order + [k])[1..] == order[1..] + [k];
    }
  }

  /** computeSecretHash and computeConfigMapHash without a file. The runtime walks the map in
      any order; the digest does not depend on it. */
  method ComputeHash(data: map<string, string>, hash: string -> string) returns (digest: string)
    ensures digest == hash(HashInput(data))
  {
    var keys: seq<string> := [];
    var pending := data.Keys;
    while pending != {}
      invariant pending <= data.Keys
      invariant Distinct(keys) && Elements(keys) == data.Keys - pending
      decreases pending
    {
      var k :| k in pending;
      assert k !in Elements(keys);
      assert Elements(keys + [k]) == Elements(keys) + {k};
      keys := keys + [k];
      pending := pending - {k};
    }
    assert Elements(keys) == data.Keys;
    keys := Sort(keys);
    SortedKeysAreTheKeys(data.Keys);
    var bytes := "";
    for i := 0 to |keys|
      invariant forall k :: k in keys[..i] ==> k in data
      invariant bytes == InputOver(keys[..i], data)
    {
      assert keys[i] in data;
      InputOverSnoc(keys[..i], keys[i], data);
      assert keys[..i + 1] == keys[..i] + [keys[i]];
      bytes := bytes + keys[i] + data[keys[i]];
    }
    assert keys[..|keys|] == keys;
    digest := hash(bytes);
  }

  /** Any two orders in which the same keys can be met sort to one sequence, so the hashed
      text is determined by the data. */
  lemma IterationOrderIsIrrelevant(data: map<string, string>, first: seq<string>, second: seq<string>)
    requires Ascending(first) && Distinct(first) && Elements(first) == data.Keys
    requires Ascending(second) && Distinct(second) && Elements(second) == data.Keys
    ensures first == second
    ensures InputOver(first, data) == HashInput(data)
  {
    AscendingIsUnique(first);
    AscendingIsUnique(second);
    forall k | k in first ensures k in data { assert k in Elements(first); }
  }

  // ---- what the hashed text tells apart -------------------------------------

  lemma {:induction false} SortedKeysDiffer(keys: set<string>)
    ensures Distinct(SortedKeys(keys))
    decreases keys
  {
    if keys != {} {
      var rest := SortedKeys(keys - {Least(keys)});
      SortedKeysDiffer(keys - {Least(keys)});
      SortedKeysAreTheKeys(keys - {Least(keys)});
      assert forall j :: 0 <= j < |rest| ==> rest[j] in rest;
    }
  }

  lemma {:induction false} InputOverUnaffected(order: seq<string>, data: map<string, string>, k: string, v: string)
    requires k !in order && forall x :: x in order ==> x in data
    ensures forall x :: x in order ==> x in data[k := v]
    ensures InputOver(order, data[k := v]) == InputOver(order, data)
  {
    if |order| > 0 {
      InputOverUnaffected(order[1..], data, k, v);
    }
  }

  lemma SameAffixes(pre: string, a: string, b: string, post: string)
    ensures pre + a + post == pre + b + post <==> a == b
  {
    if pre + a + post == pre + b + post {
      assert |a| == |b|;
      assert (pre + a + post)[|pre|..|pre| + |a|] == a;
      assert (pre + b + post)[|pre|..|pre| + |b|] == b;
    }
  }

  lemma {:induction false} InputOverSeesChange(order: seq<string>, data: map<string, string>, k: string, v: string)
    requires Distinct(order) && k in order && forall x :: x in order ==> x in data
    ensures forall x :: x in order ==> x in data[k := v]
    ensures InputOver(order, data[k := v]) == InputOver(order, data) <==> v == data[k]
  {
    var rest := order[1..];
    assert forall i :: 0 <= i < |rest| ==> rest[i] == order[i + 1];
    if order[0] == k {
      assert k !in rest;
      InputOverUnaffected(rest, data, k, v);
      SameAffixes(k, v, data[k], InputOver(rest, data));
    } else {
      assert k in rest;
      InputOverSeesChange(rest, data, k, v);
      var head, x, y := order[0] + data[order[0]], InputOver(rest, data[k := v]), InputOver(rest, data);
      SameAffixes(head, x, y, "");
      assert head + x + "" == head + x && head + y + "" == head + y;
    }
  }

  /** Changing one value changes the hashed text, always. */
  lemma HashInputSeesChange(data: map<string, string>, k: string, v: string)
    requires k in data
    ensures HashInput(data[k := v]) == HashInput(data) <==> v == data[k]
  {
    SortedKeysAreTheKeys(data.Keys);
    SortedKeysDiffer(data.Keys);
    assert data[k := v].Keys == data.Keys;
    InputOverSeesChange(SortedKeys(data.Keys), data, k, v);
  }

  lemma HashInputOfOne(k: string, v: string)
    ensures HashInput(map[k := v]) == k + v
  {
    var data := map[k := v];
    assert data.Keys == {k};
    assert Ascending([k]) && Distinct([k]) && Elements([k]) == {k};
    AscendingIsUnique([k]);
    assert InputOver([k], data) == k + v + InputOver([k][1..], data);
  }

  /** But nothing marks where a key ends, so moving a boundary does not. */
  lemma HashInputMissesBoundaries(k: string, l: string, v: string)
    requires |l| > 0
    ensures map[k := l + v] != map[k + l := v]
    ensures HashInput(map[k := l + v]) == HashInput(map[k + l := v])
  {
    HashInputOfOne(k, l + v);
    HashInputOfOne(k + l, v);
    assert k + (l + v) == (k + l) + v;
    assert |k + l| != |k|;
    assert k in map[k := l + v] && k !in map[k + l := v];
  }
}
