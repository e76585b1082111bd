/**
  The calls this library makes on Sunspot, recorded as a log, and a
  reference semantics for them: what the search index holds after a log
  of calls. Documents added by `Sunspot.index` are staged; `Sunspot.commit`
  makes the staged documents visible to searches; `Sunspot.index!` and
  `Sunspot.remove!` change the staged documents and commit at once.
 */
module SearchIndex {
  import opened Documents

  /** One call on Sunspot, as this library issues it. */
  datatype Call =
    | Index(records: seq<Record>)  // Sunspot.index(records)
    | IndexNow(record: Record)     // Sunspot.index!(record)
    | RemoveNow(record: Record)    // Sunspot.remove!(record)
    | Commit                       // Sunspot.commit

  /** Index entries by key: those written so far, and those a search sees. */
  datatype SolrState = SolrState(staged: map<string, Record>, visible: map<string, Record>)

  /** The entries that indexing `records` in order writes; a later document with the same key replaces an earlier one. */
  function Keyed(records: seq<Record>): (m: map<string, Record>)
    ensures forall r :: r in records ==> Key(r) in m
    ensures forall k :: k in m ==> m[k] in records && Key(m[k]) == k
    ensures records != [] ==> m[Key(records[|records| - 1])] == records[|records| - 1]
  {
    if records == [] then map[]
    else
      var last := records[|records| - 1];
      var m := Keyed(records[..|records| - 1]);
      assert records == records[..|records| - 1] + [last];
      var m' := m[Key(last) := last];
      assert m'[Key(last)] == last;
      m'
  }

  lemma UnionUpdate<K, V>(x: map<K, V>, y: map<K, V>, k: K, v: V)
    ensures (x + y)[k := v] == x + y[k := v]
  {
  }

  lemma {:induction false} KeyedAppend(a: seq<Record>, b: seq<Record>)
    ensures Keyed(a + b) == Keyed(a) + Keyed(b)
  {
    if b == [] {
      assert a + b == a;
    } else {
      var b', last := b[..|b| - 1], b[|b| - 1];
      assert (a + b)[..|a + b| - 1] == a + b';
      assert (a + b)[|a + b| - 1] == last;
      KeyedAppend(a, b');
      UnionUpdate(Keyed(a), Keyed(b'), Key(last), last);
    }
  }

  /** No two documents of the collection share an id, as MongoDB guarantees for `_id`. */
  predicate UniqueIds(records: seq<Record>) {
    forall i, j :: 0 <= i < j < |records| ==> records[i].id != records[j].id
  }

  /** With unique ids, indexing a collection gives each document its own entry. */
  lemma KeyedUnique(records: seq<Record>, r: Record)
    requires UniqueIds(records) && r in records
    ensures Key(r) in Keyed(records) && Keyed(records)[Key(r)] == r
  {
    var m := Keyed(records);
    var other := m[Key(r)];
    KeyIdentifiesId(other, r);
    var i :| 0 <= i < |records| && records[i] == r;
    var j :| 0 <= j < |records| && records[j] == other;
    assert records[i].id == records[j].id;
  }

  /** The effect of one call on the index. */
  function Apply(s: SolrState, c: Call): (t: SolrState)
    ensures c.Index? ==> t.visible == s.visible && t.staged == s.staged + Keyed(c.records)
    ensures c.IndexNow? ==> t.visible == t.staged && Key(c.record) in t.visible && t.visible[Key(c.record)] == c.record
    ensures c.RemoveNow? ==> t.visible == t.staged && Key(c.record) !in t.visible
    ensures c.Commit? ==> t.visible == t.staged == s.staged
    ensures !c.Index? && !c.Commit? ==> forall k :: k != Key(c.record) ==> (k in t.staged <==> k in s.staged)
    ensures !c.Index? && !c.Commit? ==> forall k :: k != Key(c.record) && k in s.staged ==> t.staged[k] == s.staged[k]
  {
    match c
    case Index(rs) => s.(staged := s.staged + Keyed(rs))
    case IndexNow(r) => var st := s.staged[Key(r) := r]; SolrState(st, st)
    case RemoveNow(r) => var st := s.staged - {Key(r)}; SolrState(st, st)
    case Commit => s.(visible := s.staged)
  }

  /** The index after a log of calls, applied in order. */
  function Replay(s: SolrState, calls: seq<Call>): SolrState
  {
    if calls == [] then s
    else Apply(Replay(s, calls[..|calls| - 1]), calls[|calls| - 1])
  }

  lemma {:induction false} ReplayAppend(s: SolrState, a: seq<Call>, b: seq<Call>)
    ensures Replay(s, a + b) == Replay(Replay(s, a), b)
  {
    if b == [] {
      assert a + b == a;
    } else {
      var b' := b[..|b| - 1];
      assert (a + b)[..|a + b| - 1] == a + b';
      assert (a + b)[|a + b| - 1] == b[|b| - 1];
      ReplayAppend(s, a, b');
    }
  }

  /** Indexing the same document twice with `index!` leaves the index as indexing it once. */
  lemma IndexNowIdempotent(s: SolrState, r: Record)
    ensures Apply(Apply(s, IndexNow(r)), IndexNow(r)) == Apply(s, IndexNow(r))
  {
  }
}
