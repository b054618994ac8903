/**
 * The content-list records that the document parser writes and that both RAG entry points
 * (rag_core.py and my_rag.py) read back, and the test both of them apply to pick the
 * records worth embedding.
 *
 * A record is a JSON object, so it is modelled as a map from keys to JSON values; Python's
 * `item.get(key, default)` is `Get`.
 */
module Records {
  import opened Text

  /** A JSON value as `json.load` returns it; arrays and objects are not looked into. */
  datatype Value = Null | Bool(b: bool) | Num(n: int) | Str(s: string) | Composite

  type Record = map<string, Value>

  /** The exceptions the list comprehensions and loops can raise, with the index of the item. */
  datatype Error =
    | AttributeError(at: nat)           // `.strip()` applied to a `text` that is not a string
    | KeyError(at: nat, key: string)    // `item['chunk_id']` on an item without that key

  function Get(r: Record, key: string, default: Value): Value {
    if key in r then r[key] else default
  }

  /** The identifier given to the item at position `i`: `f"chunk_{i}"`. */
  function ChunkId(i: nat): string {
    "chunk_" + NatToString(i)
  }

  /** Distinct positions get distinct identifiers. */
  lemma ChunkIdInjective(i: nat, j: nat)
    requires ChunkId(i) == ChunkId(j)
    ensures i == j
  {
    assert ChunkId(i)[6..] == NatToString(i);
    assert ChunkId(j)[6..] == NatToString(j);
    NatToStringInjective(i, j);
  }

  /**
   * How `item.get("type") == "text" and item.get("text", "").strip()` evaluates: `and`
   * stops at a non-text item; a missing `text` counts as ""; a `text` that is not a
   * string raises on `.strip()`.
   */
  datatype TextCheck = NotText | Blank | NonBlank(text: string) | NotAString

  function CheckText(r: Record): TextCheck {
    if Get(r, "type", Null) != Str("text") then NotText
    else match Get(r, "text", Str(""))
      case Str(s) => if IsBlank(s) then Blank else NonBlank(s)
      case _ => NotAString
  }

  /** The item is turned into a document. */
  predicate Qualifies(r: Record) {
    CheckText(r).NonBlank?
  }

  /**
   * The positions of the qualifying items, in increasing order: exactly the items kept,
   * nothing else, in input order.
   */
  function QualifyingIndices(data: seq<Record>): (q: seq<nat>)
    ensures |q| <= |data|
    ensures forall k :: 0 <= k < |q| ==> q[k] < |data| && Qualifies(data[q[k]])
    ensures forall k, l :: 0 <= k < l < |q| ==> q[k] < q[l]
    ensures forall i :: 0 <= i < |data| && Qualifies(data[i]) ==> i in q
  {
    if data == [] then []
    else
      var n := |data| - 1;
      var p := QualifyingIndices(data[..n]);
      if Qualifies(data[n]) then p + [n] else p
  }

  /** Two lists whose items qualify at the same positions select the same positions. */
  lemma {:induction false} QualifyingIndicesCongruent(a: seq<Record>, b: seq<Record>)
    requires |a| == |b|
    requires forall i :: 0 <= i < |a| ==> (Qualifies(a[i]) <==> Qualifies(b[i]))
    ensures QualifyingIndices(a) == QualifyingIndices(b)
  {
    if a != [] {
      var n := |a| - 1;
      QualifyingIndicesCongruent(a[..n], b[..n]);
    }
  }

  /** The number of qualifying items. */
  function QualifyingCount(data: seq<Record>): nat {
    |QualifyingIndices(data)|
  }
}
