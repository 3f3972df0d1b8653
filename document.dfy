/** Go map assignments as a write log. Every builder and the composer fill a
    map by assigning one key at a time (and the composer copies a whole
    builder map into the template); a map's final content is the log replayed
    in order, so a key assigned twice keeps the value of its last write. */
module Document {

  datatype Write<V> = Put(key: string, value: V) | Merge(entries: map<string, V>)

  /** The effect of one write: an assignment, or a copy of every entry of
      another map, each overwriting an existing key. */
  function Apply<V>(m: map<string, V>, w: Write<V>): (r: map<string, V>)
    ensures w.Put? ==> w.key in r && r[w.key] == w.value
  {
    match w
    case Put(k, v) => m[k := v]
    case Merge(e) => m + e
  }

  /** Replays a log from its first write to its last. */
  function Run<V>(m: map<string, V>, ws: seq<Write<V>>): map<string, V>
    decreases |ws|
  {
    if |ws| == 0 then m else Apply(Run(m, ws[..|ws| - 1]), ws[|ws| - 1])
  }

  /** w assigns key k. */
  predicate Writes<V>(w: Write<V>, k: string)
  {
    match w
    case Put(key, _) => key == k
    case Merge(e) => k in e
  }

  /** The value w assigns to k. */
  function Written<V>(w: Write<V>, k: string): V
    requires Writes(w, k)
  {
    match w
    case Put(_, v) => v
    case Merge(e) => e[k]
  }

  /** Replaying two logs one after the other is replaying their concatenation. */
  lemma {:induction false} RunAppend<V>(m: map<string, V>, a: seq<Write<V>>, b: seq<Write<V>>)
    ensures Run(m, a + b) == Run(Run(m, a), b)
    decreases |b|
  {
    if |b| == 0 {
      assert a + b == a;
    } else {
      assert (a + b)[..|a + b| - 1] == a + b[..|b| - 1];
      RunAppend(m, a, b[..|b| - 1]);
    }
  }

  /** A key is present after a replay exactly when it was present before or
      some write assigns it: writes never remove a key. */
  lemma {:induction false} RunKeys<V>(m: map<string, V>, ws: seq<Write<V>>, k: string)
    ensures k in Run(m, ws) <==> k in m || exists i :: 0 <= i < |ws| && Writes(ws[i], k)
    decreases |ws|
  {
    if |ws| > 0 {
      var init := ws[..|ws| - 1];
      RunKeys(m, init, k);
      if exists i :: 0 <= i < |ws| && Writes(ws[i], k) {
        var i :| 0 <= i < |ws| && Writes(ws[i], k);
        if i < |ws| - 1 {
          assert Writes(init[i], k);
        }
      }
    }
  }

  /** Last writer wins: the value of a key after a replay is the value of the
      last write that assigns it. */
  lemma {:induction false} RunLast<V>(m: map<string, V>, ws: seq<Write<V>>, i: nat, k: string)
    requires i < |ws| && Writes(ws[i], k)
    requires forall j :: i < j < |ws| ==> !Writes(ws[j], k)
    ensures k in Run(m, ws) && Run(m, ws)[k] == Written(ws[i], k)
    decreases |ws|
  {
    if i < |ws| - 1 {
      var init := ws[..|ws| - 1];
      RunLast(m, init, i, k);
      assert !Writes(ws[|ws| - 1], k);
    }
  }

  /** A key no write assigns keeps its presence and its value. */
  lemma {:induction false} RunUntouched<V>(m: map<string, V>, ws: seq<Write<V>>, k: string)
    requires forall j :: 0 <= j < |ws| ==> !Writes(ws[j], k)
    ensures k in Run(m, ws) <==> k in m
    ensures k in m ==> Run(m, ws)[k] == m[k]
    decreases |ws|
  {
    if |ws| > 0 {
      var init := ws[..|ws| - 1];
      RunUntouched(m, init, k);
      assert !Writes(ws[|ws| - 1], k);
    }
  }

  /** When some write assigns k and every write that assigns k assigns the
      same value v, the replay holds v at k, whatever the order. */
  lemma {:induction false} RunAgree<V>(m: map<string, V>, ws: seq<Write<V>>, w: Write<V>, k: string, v: V)
    requires w in ws && Writes(w, k)
    requires forall u :: u in ws && Writes(u, k) ==> Written(u, k) == v
    ensures k in Run(m, ws) && Run(m, ws)[k] == v
    decreases |ws|
  {
    var init, last := ws[..|ws| - 1], ws[|ws| - 1];
    assert ws == init + [last];
    RunSnoc(m, init, last);
    if !Writes(last, k) {
      assert w in init;
      RunAgree(m, init, w, k, v);
    } else if last.Merge? {
      assert Written(last, k) == v;
    }
  }

  /** Replaying one more write applies it to the replayed map. */
  lemma RunSnoc<V>(m: map<string, V>, ws: seq<Write<V>>, w: Write<V>)
    ensures Run(m, ws + [w]) == Apply(Run(m, ws), w)
  {
    assert (ws + [w])[..|ws + [w]| - 1] == ws;
  }

  /** One more assignment to another key changes nothing about k. */
  lemma RunPutOther<V>(m: map<string, V>, ws: seq<Write<V>>, key: string, value: V, k: string)
    requires key != k
    ensures k in Run(m, ws + [Put(key, value)]) <==> k in Run(m, ws)
    ensures k in Run(m, ws) ==> Run(m, ws + [Put(key, value)])[k] == Run(m, ws)[k]
  {
    RunSnoc(m, ws, Put(key, value));
  }

  /** After two assignments to different keys, either key holds its value
      and any other key keeps the value it had. */
  lemma RunTwoPuts<V>(m: map<string, V>, ws: seq<Write<V>>, k1: string, v1: V, k2: string, v2: V, k: string, v: V)
    requires k1 != k2
    requires (k == k1 && v == v1) || (k == k2 && v == v2) || (k != k1 && k != k2 && k in Run(m, ws) && Run(m, ws)[k] == v)
    ensures k in Run(m, ws + [Put(k1, v1), Put(k2, v2)]) && Run(m, ws + [Put(k1, v1), Put(k2, v2)])[k] == v
  {
    RunSnoc(m, ws, Put(k1, v1));
    RunSnoc(m, ws + [Put(k1, v1)], Put(k2, v2));
    assert ws + [Put(k1, v1)] + [Put(k2, v2)] == ws + [Put(k1, v1), Put(k2, v2)];
  }

  /** Logs written one after another, as one log. */
  function Concat<T>(parts: seq<seq<T>>): seq<T>
  {
    if |parts| == 0 then [] else Concat(parts[..|parts| - 1]) + parts[|parts| - 1]
  }

  /** One more part extends the log by that part. */
  lemma ConcatStep<T>(log0: seq<T>, parts: seq<seq<T>>, i: nat)
    requires i < |parts|
    ensures log0 + Concat(parts[..i]) + parts[i] == log0 + Concat(parts[..i + 1])
  {
    assert parts[..i + 1][..i] == parts[..i];
    AppendAssoc(log0, Concat(parts[..i]), parts[i]);
  }

  /** A write is in the joined log exactly when it is in one of its parts. */
  lemma {:induction false} ConcatMember<T>(parts: seq<seq<T>>, x: T)
    ensures x in Concat(parts) <==> exists i :: 0 <= i < |parts| && x in parts[i]
    decreases |parts|
  {
    if |parts| > 0 {
      var init := parts[..|parts| - 1];
      ConcatMember(init, x);
      if exists i :: 0 <= i < |parts| && x in parts[i] {
        var i :| 0 <= i < |parts| && x in parts[i];
        if i < |parts| - 1 {
          assert x in init[i];
        }
      }
    }
  }

  /** Appending a log in two parts is appending it at once. */
  lemma AppendAssoc<T>(a: seq<T>, b: seq<T>, c: seq<T>)
    ensures a + (b + c) == a + b + c
  {
  }

  /** A key some write assigns is present after the replay. */
  lemma RunHas<V>(m: map<string, V>, ws: seq<Write<V>>, w: Write<V>, k: string)
    requires w in ws && Writes(w, k)
    ensures k in Run(m, ws)
  {
    var i :| 0 <= i < |ws| && ws[i] == w;
    RunKeys(m, ws, k);
  }

  /** A property every starting entry and every written entry has holds of
      every entry after the replay. */
  lemma {:induction false} RunAll<V>(m: map<string, V>, ws: seq<Write<V>>, P: (string, V) -> bool)
    requires forall k :: k in m ==> P(k, m[k])
    requires forall w, k :: w in ws && Writes(w, k) ==> P(k, Written(w, k))
    ensures forall k :: k in Run(m, ws) ==> P(k, Run(m, ws)[k])
    decreases |ws|
  {
    if |ws| > 0 {
      var init := ws[..|ws| - 1];
      forall w, k | w in init && Writes(w, k) ensures P(k, Written(w, k)) {
        assert w in ws;
      }
      RunAll(m, init, P);
      var last := ws[|ws| - 1];
      assert last in ws;
      forall k | k in Run(m, ws) ensures P(k, Run(m, ws)[k]) {
        if Writes(last, k) {
          assert Run(m, ws)[k] == Written(last, k);
        } else {
          assert k in Run(m, init) && Run(m, ws)[k] == Run(m, init)[k];
        }
      }
    }
  }
}
