/** The environment specification document, decoded.

    The script loads the environment's YAML spec, reads the namespace list
    from `spec.namespaces` (an absent field reads as the empty list) and,
    after reconciling, writes the new list back into that one field before
    re-serialising. The YAML codec itself is not modelled: a document is a
    map from top-level keys to nodes, and the `spec` node is itself a map. */
module SpecDocument {
  import opened Outcomes

  /** A decoded YAML value, as far as this model needs to tell values apart. */
  datatype Node =
    | Scalar(text: string)
    | Names(items: seq<string>)
    | Mapping(fields: map<string, Node>)

  type Document = map<string, Node>

  const SpecKey: string := "spec"
  const NamespacesKey: string := "namespaces"

  /** The document has a `spec` entry that is a mapping, so both reading and
      writing `spec.namespaces` can proceed. */
  predicate HasSpecMapping(doc: Document) {
    SpecKey in doc && doc[SpecKey].Mapping?
  }

  /** The fields of the nested `spec` mapping. */
  function SpecFields(doc: Document): map<string, Node>
    requires HasSpecMapping(doc)
  {
    doc[SpecKey].fields
  }

  /** The namespace list as `collect_metadata` obtains it. */
  function ReadNamespaces(doc: Document): (r: Result<seq<string>>)
    ensures r.Ok? <==>
              HasSpecMapping(doc) &&
              (NamespacesKey in SpecFields(doc) ==> SpecFields(doc)[NamespacesKey].Names?)
    ensures SpecKey !in doc ==> r == Err(MissingSpec)
    ensures r.Ok? && NamespacesKey !in SpecFields(doc) ==> r.value == []
    ensures r.Ok? && NamespacesKey in SpecFields(doc) ==>
              SpecFields(doc)[NamespacesKey] == Names(r.value)
  {
    if SpecKey !in doc then Err(MissingSpec)
    else if !doc[SpecKey].Mapping? then Err(MalformedSpec)
    else
      var fields := doc[SpecKey].fields;
      if NamespacesKey !in fields then Ok([])
      else match fields[NamespacesKey]
        case Names(items) => Ok(items)
        case _ => Err(MalformedSpec)
  }

  /** `prepare_spec`: overwrite `spec.namespaces` with `namespaces`. */
  function PrepareSpec(namespaces: seq<string>, doc: Document): (r: Result<Document>)
    ensures r.Ok? <==> HasSpecMapping(doc)
    ensures SpecKey !in doc ==> r == Err(MissingSpec)
    ensures r.Ok? ==> r.value.Keys == doc.Keys
    ensures r.Ok? ==> forall k | k in doc && k != SpecKey :: r.value[k] == doc[k]
    ensures r.Ok? ==> HasSpecMapping(r.value)
    ensures r.Ok? ==> SpecFields(r.value).Keys == SpecFields(doc).Keys + {NamespacesKey}
    ensures r.Ok? ==>
              forall k | k in SpecFields(doc) && k != NamespacesKey ::
                SpecFields(r.value)[k] == SpecFields(doc)[k]
    ensures r.Ok? ==> SpecFields(r.value)[NamespacesKey] == Names(namespaces)
  {
    if SpecKey !in doc then Err(MissingSpec)
    else match doc[SpecKey]
      case Mapping(fields) => Ok(doc[SpecKey := Mapping(fields[NamespacesKey := Names(namespaces)])])
      case _ => Err(MalformedSpec)
  }

  /** Reading back a written list yields that list. */
  lemma ReadAfterPrepare(namespaces: seq<string>, doc: Document)
    requires HasSpecMapping(doc)
    ensures PrepareSpec(namespaces, doc).Ok?
    ensures ReadNamespaces(PrepareSpec(namespaces, doc).value) == Ok(namespaces)
  {
  }

  /** A document the script could read is one it can write back. */
  lemma ReadableIsWritable(doc: Document, namespaces: seq<string>)
    requires ReadNamespaces(doc).Ok?
    ensures PrepareSpec(namespaces, doc).Ok?
  {
  }

  /** Writing back the list that was read, when the field was present,
      leaves the document exactly as it was. */
  lemma WriteBackIsIdentity(doc: Document)
    requires ReadNamespaces(doc).Ok? && NamespacesKey in SpecFields(doc)
    ensures PrepareSpec(ReadNamespaces(doc).value, doc) == Ok(doc)
  {
    var fields := SpecFields(doc);
    assert fields[NamespacesKey := fields[NamespacesKey]] == fields;
    assert doc[SpecKey := Mapping(fields)] == doc;
  }

  /** Writing twice is the same as writing the second list once. */
  lemma PrepareSpecLastWriteWins(a: seq<string>, b: seq<string>, doc: Document)
    requires HasSpecMapping(doc)
    ensures PrepareSpec(a, doc).Ok?
    ensures PrepareSpec(b, PrepareSpec(a, doc).value) == PrepareSpec(b, doc)
  {
    var fields := SpecFields(doc);
    var once := doc[SpecKey := Mapping(fields[NamespacesKey := Names(a)])];
    assert PrepareSpec(a, doc) == Ok(once);
    assert once[SpecKey].fields == fields[NamespacesKey := Names(a)];
    assert fields[NamespacesKey := Names(a)][NamespacesKey := Names(b)] == fields[NamespacesKey := Names(b)];
    assert once[SpecKey := Mapping(fields[NamespacesKey := Names(b)])]
        == doc[SpecKey := Mapping(fields[NamespacesKey := Names(b)])];
  }
}
