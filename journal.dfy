/** Journal entries and their serialized form under the journal key. */
module JournalRepository {

  import opened Wrappers

  /** One recorded problem-and-guidance pair. The guidance value comes from
      another component and is never looked into here, hence the type
      parameter. The id is the creation timestamp, supplied by the caller. */
  datatype Entry<G> = Entry(id: string, problem: string, guidance: G)

  /** `JSON.stringify` and `JSON.parse` of a journal list. A parse that throws
      is `None`. */
  datatype Codec<!G> = Codec(encode: seq<Entry<G>> -> string, decode: string -> Option<seq<Entry<G>>>)

  /** What the coordinator relies on from the codec: parsing what was
      written gives the list back, and the text written is never empty (an
      array always serializes to at least `[]`), so it is truthy on reload. */
  ghost predicate Faithful<G(!new)>(codec: Codec<G>)
  {
    && (forall s :: codec.decode(codec.encode(s)) == Some(s))
    && (forall s :: codec.encode(s) != "")
  }

  /** The journal order is newest first, the reverse of the order of adding. */
  function Reverse<T>(s: seq<T>): (r: seq<T>)
    ensures |r| == |s|
  {
    if s == [] then [] else Reverse(s[1..]) + [s[0]]
  }
}
