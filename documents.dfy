/**
  Documents stored by Mongoid, the string form of their identifiers
  (`InstanceAdapter#id`) and the lookups Sunspot uses to load them back
  (`DataAccessor#load`, `DataAccessor#load_all`).
 */
module Documents {
  import opened Wrappers

  newtype byte = x: int | 0 <= x < 256

  /** A BSON ObjectId: twelve bytes. */
  const ObjectIdSize := 12
  type ObjectId = b: seq<byte> | |b| == ObjectIdSize witness seq(ObjectIdSize, _ => 0)

  /** A stored document: its `_id` and its other fields, left uninterpreted. */
  datatype Record = Record(id: ObjectId, attributes: map<string, string>)

  const HexDigits: string := "0123456789abcdef"

  /** `ObjectId#to_s`: two lower-case hexadecimal digits per byte. */
  function ToHex(bs: seq<byte>): (t: string)
    ensures |t| == 2 * |bs|
  {
    if bs == [] then []
    else [HexDigits[bs[0] as int / 16], HexDigits[bs[0] as int % 16]] + ToHex(bs[1..])
  }

  /** The value of one hexadecimal digit, in either case, as a legal ObjectId string allows. */
  function DigitValue(c: char): (v: Option<nat>)
    ensures v.Some? ==> v.value < 16
  {
    if '0' <= c <= '9' then Some(c as int - '0' as int)
    else if 'a' <= c <= 'f' then Some(c as int - 'a' as int + 10)
    else if 'A' <= c <= 'F' then Some(c as int - 'A' as int + 10)
    else None
  }

  /** Reads pairs of hexadecimal digits back into bytes; `None` on any other character or an odd length. */
  function FromHex(t: string): (r: Option<seq<byte>>)
    ensures r.Some? ==> 2 * |r.value| == |t|
    decreases |t|
  {
    if t == [] then Some([])
    else if |t| == 1 then None
    else
      match (DigitValue(t[0]), DigitValue(t[1]), FromHex(t[2..]))
      case (Some(hi), Some(lo), Some(rest)) => Some([(hi * 16 + lo) as byte] + rest)
      case _ => None
  }

  lemma DigitValueOfHexDigit(d: nat)
    requires d < 16
    ensures DigitValue(HexDigits[d]) == Some(d)
  {
  }

  lemma FromHexPair(c0: char, c1: char, rest: string, hi: nat, lo: nat, tail: seq<byte>)
    requires DigitValue(c0) == Some(hi) && DigitValue(c1) == Some(lo) && FromHex(rest) == Some(tail)
    ensures FromHex([c0, c1] + rest) == Some([(hi * 16 + lo) as byte] + tail)
  {
    var t := [c0, c1] + rest;
    assert t[0] == c0 && t[1] == c1 && t[2..] == rest;
  }

  lemma {:induction false} FromHexToHex(bs: seq<byte>)
    ensures FromHex(ToHex(bs)) == Some(bs)
  {
    if bs != [] {
      var x := bs[0] as int;
      var hi, lo := x / 16, x % 16;
      DigitValueOfHexDigit(hi);
      DigitValueOfHexDigit(lo);
      FromHexToHex(bs[1..]);
      FromHexPair(HexDigits[hi], HexDigits[lo], ToHex(bs[1..]), hi, lo, bs[1..]);
      assert [(hi * 16 + lo) as byte] + bs[1..] == bs;
    }
  }

  /** The ObjectId a string names when Mongoid is asked to find it: a legal ObjectId string is 24 hexadecimal digits. */
  function ParseId(t: string): (r: Option<ObjectId>)
    ensures r.Some? ==> |t| == 2 * ObjectIdSize
  {
    if |t| != 2 * ObjectIdSize then None
    else
      match FromHex(t)
      case Some(bs) => Some(bs)
      case None => None
  }

  /** `InstanceAdapter#id`: the index key of a document is the string form of its id. */
  function Key(r: Record): (k: string)
    ensures |k| == 2 * ObjectIdSize
  {
    ToHex(r.id)
  }

  /** Mongoid reads a document's index key back as that document's id. */
  lemma KeyNamesId(r: Record)
    ensures ParseId(Key(r)) == Some(r.id)
  {
    FromHexToHex(r.id);
  }

  /** Two documents share an index key exactly when they share an id. */
  lemma KeyIdentifiesId(a: Record, b: Record)
    ensures Key(a) == Key(b) <==> a.id == b.id
  {
    KeyNamesId(a);
    KeyNamesId(b);
  }

  /** The string `key` names the document `r`. */
  predicate Names(key: string, r: Record) {
    ParseId(key) == Some(r.id)
  }

  /** The ids a list of key strings names; strings that are not legal ObjectIds name none. */
  function Ids(keys: seq<string>): (ids: set<ObjectId>)
  {
    set k | k in keys && ParseId(k).Some? :: ParseId(k).value
  }

  /** `criteria.find(ids)`: the documents of the collection whose id is among `ids`. */
  function Find(coll: seq<Record>, ids: set<ObjectId>): (r: seq<Record>)
    ensures |r| <= |coll|
    ensures forall x :: x in r <==> x in coll && x.id in ids
  {
    if coll == [] then []
    else if coll[0].id in ids then [coll[0]] + Find(coll[1..], ids)
    else Find(coll[1..], ids)
  }

  /** The first document of `Find` is the first matching document of the collection. */
  lemma {:induction false} FindStartsAtFirstMatch(coll: seq<Record>, ids: set<ObjectId>)
    ensures Find(coll, ids) != [] ==>
      exists i :: 0 <= i < |coll| && coll[i] == Find(coll, ids)[0] && coll[i].id in ids &&
        forall j :: 0 <= j < i ==> coll[j].id !in ids
  {
    if coll != [] && coll[0].id !in ids {
      FindStartsAtFirstMatch(coll[1..], ids);
      if Find(coll, ids) != [] {
        var i :| 0 <= i < |coll[1..]| && coll[1..][i] == Find(coll[1..], ids)[0] && coll[1..][i].id in ids &&
          forall j :: 0 <= j < i ==> coll[1..][j].id !in ids;
        assert coll[i + 1] == Find(coll, ids)[0];
        forall j | 0 <= j < i + 1 ensures coll[j].id !in ids {
          if j > 0 { assert coll[j] == coll[1..][j - 1]; }
        }
      }
    }
  }

  /** `DataAccessor#load`: the first document named by `key`, or nothing when none is. */
  function Load(coll: seq<Record>, key: string): (r: Option<Record>)
    ensures r.Some? <==> exists i :: 0 <= i < |coll| && Names(key, coll[i])
    ensures r.Some? ==>
      exists i :: 0 <= i < |coll| && coll[i] == r.value && Names(key, coll[i]) &&
        forall j :: 0 <= j < i ==> !Names(key, coll[j])
  {
    var found := Find(coll, Ids([key]));
    FindStartsAtFirstMatch(coll, Ids([key]));
    assert forall x :: Names(key, x) <==> x.id in Ids([key]);
    if found == [] then None else Some(found[0])
  }

  /** `DataAccessor#load_all`: the documents named by any of `keys`. */
  function LoadAll(coll: seq<Record>, keys: seq<string>): (r: seq<Record>)
    ensures forall x :: x in r <==> x in coll && exists k :: k in keys && Names(k, x)
  {
    Find(coll, Ids(keys))
  }

  /** Loading a document by its own index key finds a document with the same id and the same key. */
  lemma LoadByKey(coll: seq<Record>, r: Record)
    requires r in coll
    ensures Load(coll, Key(r)).Some?
    ensures Load(coll, Key(r)).value.id == r.id
    ensures Key(Load(coll, Key(r)).value) == Key(r)
  {
    var i :| 0 <= i < |coll| && coll[i] == r;
    KeyNamesId(r);
    assert Names(Key(r), coll[i]);
    KeyIdentifiesId(Load(coll, Key(r)).value, r);
  }
}
