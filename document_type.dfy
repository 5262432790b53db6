/** The DocumentType enum: the four kinds of document, each with the name of its
    RediSearch index and the key prefix under which its vectors are stored. */
module DocumentTypes {
  import opened Common
  import opened JavaStrings

  datatype DocumentType = PDF | MARKDOWN | JSON | TEXT

  /** DocumentType.values(), in declaration order. */
  function Values(): (vs: seq<DocumentType>)
    ensures |vs| == 4
  {
    [PDF, MARKDOWN, JSON, TEXT]
  }

  /** values() lists each of the four variants exactly once. */
  lemma ValuesAreTheFourVariants()
    ensures |Values()| == 4 && Distinct(Values())
    ensures forall t: DocumentType :: t in Values()
  {
    var vs := Values();
    forall t: DocumentType ensures t in vs {
      match t
      case PDF => assert vs[0] == t;
      case MARKDOWN => assert vs[1] == t;
      case JSON => assert vs[2] == t;
      case TEXT => assert vs[3] == t;
    }
    forall i, j | 0 <= i < j < |vs| ensures vs[i] != vs[j] {
      assert i == 0 || i == 1 || i == 2;
      assert j == 1 || j == 2 || j == 3;
    }
  }

  /** type.name(): the constant's name, in upper-case ASCII letters. */
  function Name(t: DocumentType): (r: string)
    ensures r != [] && forall k :: 0 <= k < |r| ==> 'A' <= r[k] <= 'Z'
  {
    match t
    case PDF => "PDF"
    case MARKDOWN => "MARKDOWN"
    case JSON => "JSON"
    case TEXT => "TEXT"
  }

  /** type.name().toLowerCase(), the type tag written into metadata and sources. */
  function LowerName(t: DocumentType): (r: string)
    ensures r == LowerAscii(Name(t))
  {
    match t
    case PDF => "pdf"
    case MARKDOWN => "markdown"
    case JSON => "json"
    case TEXT => "text"
  }

  /** The constructor's first argument in the enum table: "idx:" and the lower-case
      name. */
  function IndexName(t: DocumentType): (r: string)
    ensures |r| > 4 && r[..4] == "idx:" && r[4..] == LowerName(t)
  {
    match t
    case PDF => "idx:pdf"
    case MARKDOWN => "idx:markdown"
    case JSON => "idx:json"
    case TEXT => "idx:text"
  }

  /** The constructor's second argument in the enum table: "doc:", the lower-case
      name and ":". */
  function Prefix(t: DocumentType): (r: string)
    ensures |r| > 5 && r[..4] == "doc:" && r[4..|r| - 1] == LowerName(t) && r[|r| - 1] == ':'
  {
    match t
    case PDF => "doc:pdf:"
    case MARKDOWN => "doc:markdown:"
    case JSON => "doc:json:"
    case TEXT => "doc:text:"
  }

  /** Every index name is "idx:" followed by the lower-case variant name. */
  lemma IndexNameShape(t: DocumentType)
    ensures IndexName(t) == "idx:" + LowerAscii(Name(t))
  {
    assert LowerAscii(Name(t)) == LowerName(t);
  }

  /** Every key prefix is "doc:" followed by the lower-case variant name and ":". */
  lemma PrefixShape(t: DocumentType)
    ensures Prefix(t) == "doc:" + LowerAscii(Name(t)) + ":"
  {
    assert LowerAscii(Name(t)) == LowerName(t);
  }

  /** The table is injective in both columns, and the lower-case names differ too. */
  lemma NamesDistinct(a: DocumentType, b: DocumentType)
    requires a != b
    ensures IndexName(a) != IndexName(b)
    ensures Prefix(a) != Prefix(b)
    ensures LowerName(a) != LowerName(b)
  {
  }

  /** No type's key prefix is a prefix of another type's, so a key matches at most
      one type's `prefix + "*"` pattern. */
  lemma PrefixesDisjoint(a: DocumentType, b: DocumentType, key: string)
    requires Prefix(a) <= key && Prefix(b) <= key
    ensures a == b
  {
    assert Prefix(a)[4] == key[4] == Prefix(b)[4];
  }
}
