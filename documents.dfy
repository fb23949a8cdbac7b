/** The shapes of data that pass between the services: metadata values, the
    text-splitter's `Document`, and the embedded record the index stores. */
module Documents {
  import opened Text

  /** A metadata value as the services write it: a string, an integer or a
      boolean. */
  datatype MetaValue = MStr(s: string) | MInt(i: int) | MBool(b: bool)

  type Metadata = map<string, MetaValue>

  /** Python's `str(v)`. */
  function Str(v: MetaValue): string {
    match v
    case MStr(s) => s
    case MInt(i) => IntToString(i)
    case MBool(b) => if b then "True" else "False"
  }

  /** An embedding vector as returned by the embedding model. */
  type Embedding = seq<real>

  /** A text chunk with its metadata (LangChain's `Document`). */
  datatype Document = Document(pageContent: string, metadata: Metadata)

  /** A chunk ready for the index: the dictionary built by
      `EmbeddingsService.process_documents`. */
  datatype EmbeddedDoc = EmbeddedDoc(id: string, text: string, embedding: Embedding, metadata: Metadata)
}
