/** GET /prompts in both handlers: `LRANGE prompts 0 -1`, `JSON.parse` of every
    element, then `sort((a, b) => b.timestamp - a.timestamp)`. */
module Listing {
  import opened Results
  import opened Records
  import opened ListStore

  /** The record in every entry, or the message of the first entry `JSON.parse`
      rejects: `map` parses front to back and the first throw ends it. */
  function ParseAll(entries: seq<Entry>): (r: Result<seq<Prompt>>)
    ensures r.Ok? <==> forall i | 0 <= i < |entries| :: entries[i].Serialized?
    ensures r.Ok? ==> |r.value| == |entries|
    ensures r.Ok? ==> forall i | 0 <= i < |entries| :: r.value[i] == entries[i].record
    ensures r.Err? ==> exists i | 0 <= i < |entries| ::
      entries[i] == Corrupt(r.message) && forall j | 0 <= j < i :: entries[j].Serialized?
  {
    if entries == [] then Ok([])
    else
      match Parse(entries[0])
      case Err(m) => Err(m)
      case Ok(p) =>
        match ParseAll(entries[1..])
        case Err(m) =>
          var i :| 1 <= i + 1 < |entries| && entries[1..][i] == Corrupt(m)
            && forall j | 0 <= j < i :: entries[1..][j].Serialized?;
          assert entries[i + 1] == Corrupt(m);
          Err(m)
        case Ok(rest) => Ok([p] + rest)
  }

  /** Newest first: timestamps never increase along the sequence. */
  predicate NewestFirst(ps: seq<Prompt>) {
    forall i, j | 0 <= i < j < |ps| :: ps[i].Timestamp() >= ps[j].Timestamp()
  }

  /** A record no older than every record of `tail` and than `p` may stand in front
      of any newest-first arrangement of `tail` and `p`. */
  lemma PrependNewest(h: Prompt, p: Prompt, tail: seq<Prompt>, rest: seq<Prompt>)
    requires NewestFirst([h] + tail) && h.Timestamp() > p.Timestamp()
    requires NewestFirst(rest) && multiset(rest) == multiset(tail) + multiset{p}
    ensures NewestFirst([h] + rest)
  {
    forall q | q in rest
      ensures h.Timestamp() >= q.Timestamp()
    {
      assert q in multiset(rest);
      if q != p {
        assert q in tail;
        var k :| 0 <= k < |tail| && tail[k] == q;
        assert ([h] + tail)[0] == h && ([h] + tail)[k + 1] == q;
      }
    }
    var r := [h] + rest;
    forall i, j | 0 <= i < j < |r|
      ensures r[i].Timestamp() >= r[j].Timestamp()
    {
      assert r[j] == rest[j - 1];
      if i > 0 {
        assert r[i] == rest[i - 1];
      }
    }
  }

  /** Puts `p` after every record strictly newer than it and before the rest; in
      particular before records with the same timestamp. */
  function Insert(p: Prompt, ps: seq<Prompt>): (r: seq<Prompt>)
    requires NewestFirst(ps)
    ensures NewestFirst(r)
    ensures multiset(r) == multiset(ps) + multiset{p}
  {
    if ps == [] || ps[0].Timestamp() <= p.Timestamp() then
      [p] + ps
    else
      var rest := Insert(p, ps[1..]);
      assert ps == [ps[0]] + ps[1..];
      PrependNewest(ps[0], p, ps[1..], rest);
      [ps[0]] + rest
  }

  /** The comparator `(a, b) => b.timestamp - a.timestamp` under the stable sort of
      `Array.prototype.sort`: newest first, and records with equal timestamps keep
      the order they had in the list. */
  function SortNewestFirst(ps: seq<Prompt>): (r: seq<Prompt>)
    ensures NewestFirst(r)
    ensures multiset(r) == multiset(ps)
  {
    if ps == [] then []
    else
      assert ps == [ps[0]] + ps[1..];
      Insert(ps[0], SortNewestFirst(ps[1..]))
  }

  /** The records of `ps` stamped `t`, in their order in `ps`. */
  function WithTimestamp(ps: seq<Prompt>, t: int): seq<Prompt> {
    if ps == [] then []
    else if ps[0].Timestamp() == t then [ps[0]] + WithTimestamp(ps[1..], t)
    else WithTimestamp(ps[1..], t)
  }

  lemma {:induction false} InsertStable(p: Prompt, ps: seq<Prompt>, t: int)
    requires NewestFirst(ps)
    ensures WithTimestamp(Insert(p, ps), t)
      == (if p.Timestamp() == t then [p] else []) + WithTimestamp(ps, t)
  {
    if ps == [] || ps[0].Timestamp() <= p.Timestamp() {
      assert ([p] + ps)[1..] == ps;
    } else {
      InsertStable(p, ps[1..], t);
      assert ([ps[0]] + Insert(p, ps[1..]))[1..] == Insert(p, ps[1..]);
    }
  }

  /** The sort is stable: for every timestamp, the records carrying it come out in
      the order they had in the list. */
  lemma {:induction false} SortStable(ps: seq<Prompt>, t: int)
    ensures WithTimestamp(SortNewestFirst(ps), t) == WithTimestamp(ps, t)
  {
    if ps != [] {
      SortStable(ps[1..], t);
      InsertStable(ps[0], SortNewestFirst(ps[1..]), t);
    }
  }

  /** The listing GET answers: every stored record, newest first, or the message of
      the first element that does not parse; never a partial list. */
  function ListPrompts(entries: seq<Entry>): (r: Result<seq<Prompt>>)
    ensures r.Ok? <==> forall i | 0 <= i < |entries| :: entries[i].Serialized?
    ensures r.Ok? ==> NewestFirst(r.value)
    ensures r.Ok? ==> multiset(r.value) == multiset(ParseAll(entries).value)
    ensures r.Ok? ==> |r.value| == |entries|
    ensures r.Ok? ==> forall i | 0 <= i < |entries| :: entries[i].record in r.value
    ensures r.Ok? ==> forall q | q in r.value :: Serialized(q) in entries
    ensures r.Err? ==> exists i | 0 <= i < |entries| ::
      entries[i] == Corrupt(r.message) && forall j | 0 <= j < i :: entries[j].Serialized?
  {
    var ps :- ParseAll(entries);
    var sorted := SortNewestFirst(ps);
    SortedKeepsRecords(entries, ps, sorted);
    Ok(sorted)
  }

  /** A permutation of the parsed entries holds exactly the stored records. */
  lemma SortedKeepsRecords(entries: seq<Entry>, ps: seq<Prompt>, sorted: seq<Prompt>)
    requires |ps| == |entries| && forall i | 0 <= i < |entries| :: entries[i] == Serialized(ps[i])
    requires multiset(sorted) == multiset(ps)
    ensures |sorted| == |entries|
    ensures forall i | 0 <= i < |entries| :: entries[i].record in sorted
    ensures forall q | q in sorted :: Serialized(q) in entries
  {
    assert |multiset(sorted)| == |multiset(ps)|;
    forall i | 0 <= i < |entries|
      ensures entries[i].record in sorted
    {
      assert ps[i] in multiset(sorted);
    }
    forall q | q in sorted
      ensures Serialized(q) in entries
    {
      assert q in multiset(ps);
      var i :| 0 <= i < |ps| && ps[i] == q;
      assert entries[i] == Serialized(q);
    }
  }

  /** A record no older than anything in a newest-first list goes to its front. */
  lemma InsertNewest(x: Prompt, sorted: seq<Prompt>)
    requires NewestFirst(sorted)
    requires forall q | q in sorted :: q.Timestamp() <= x.Timestamp()
    ensures Insert(x, sorted) == [x] + sorted
  {
    if sorted != [] {
      assert sorted[0] in sorted;
    }
  }

  /** Sorting a list whose head is no older than the rest leaves the head in front. */
  lemma SortKeepsNewestHead(x: Prompt, rest: seq<Prompt>)
    requires forall i | 0 <= i < |rest| :: rest[i].Timestamp() <= x.Timestamp()
    ensures SortNewestFirst([x] + rest) == [x] + SortNewestFirst(rest)
  {
    assert ([x] + rest)[0] == x && ([x] + rest)[1..] == rest;
    var sorted := SortNewestFirst(rest);
    forall q | q in sorted
      ensures q.Timestamp() <= x.Timestamp()
    {
      assert q in multiset(rest);
      var k :| 0 <= k < |rest| && rest[k] == q;
    }
    InsertNewest(x, sorted);
  }

  /** Parsing a list whose first element holds `x` puts `x` first. */
  lemma ParseAllFront(x: Prompt, kept: seq<Entry>)
    requires ParseAll(kept).Ok?
    ensures ParseAll([Serialized(x)] + kept) == Ok([x] + ParseAll(kept).value)
  {
    assert ([Serialized(x)] + kept)[1..] == kept;
  }

  /** Create followed by list: when every stored element parses and the new record is
      at least as new as each of them, the listing after the capped push starts with
      the new record. */
  lemma NewestPushListedFirst(entries: seq<Entry>, x: Prompt)
    requires forall i | 0 <= i < |entries| :: entries[i].Serialized?
    requires forall i | 0 <= i < |entries| :: entries[i].record.Timestamp() <= x.Timestamp()
    ensures ListPrompts(PushCapped(entries, Serialized(x))).Ok?
    ensures ListPrompts(PushCapped(entries, Serialized(x))).value[0] == x
  {
    var after := PushCapped(entries, Serialized(x));
    PushCappedShape(entries, Serialized(x));
    var kept := after[1..];
    assert after == [Serialized(x)] + kept;
    assert forall i | 0 <= i < |kept| :: kept[i] == entries[i];
    var rest := ParseAll(kept).value;
    ParseAllFront(x, kept);
    SortKeepsNewestHead(x, rest);
  }
}
