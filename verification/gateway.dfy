/** The HTTP gateway's body writer, which wraps successful responses in the
    framework's `{"errcode":…,"errmsg":"ok","data":…}` envelope. */
module Gateway {
  import opened Wrappers
  import opened Text

  /** The writer's state: whether a header was already written (and with
      which status), and the code of the framework error recorded by the
      gateway's error handler, if any. */
  datatype BodyWriter = BodyWriter(done: bool, status: int, errCode: Option<int>)

  /** A writer as the gateway creates it for each request. */
  const Fresh := BodyWriter(false, 0, None)

  /** `WriteHeader`: records that the status went out. */
  function WriteHeader(w: BodyWriter, status: int): (r: BodyWriter)
    ensures r.done && r.status == status && r.errCode == w.errCode
  {
    w.(done := true, status := status)
  }

  /** The envelope text in front of the payload. */
  function EnvelopeHead(successCode: int): (s: string)
    ensures IsAscii(s)
  {
    "{\"errcode\":" + Itoa(successCode) + ",\"errmsg\":\"ok\",\"data\":"
  }

  /** A write is wrapped when no failing framework error was recorded and no
      header has been written yet. */
  predicate Wraps(w: BodyWriter, successCode: int) {
    !(w.errCode.Some? && w.errCode.value != successCode) && !w.done
  }

  /** `gwBodyWriter.Write`: the bytes handed to the underlying response writer. */
  function Write(w: BodyWriter, b: Bytes, successCode: int): (out: Bytes)
    ensures Wraps(w, successCode) ==>
      && |out| == |EnvelopeHead(successCode)| + |b| + 1
      && out[..|EnvelopeHead(successCode)|] == AsciiBytes(EnvelopeHead(successCode))
      && out[|EnvelopeHead(successCode)|..|out| - 1] == b
      && out[|out| - 1] == '}' as int
    ensures !Wraps(w, successCode) ==> out == b
  {
    if w.errCode.Some? && w.errCode.value != successCode then b
    else if w.done then b
    else AsciiBytes(EnvelopeHead(successCode)) + b + AsciiBytes("}")
  }

  /** Strips the envelope a successful write adds, or `None` when the bytes
      are not such an envelope. */
  function Unwrap(out: Bytes, successCode: int): Option<Bytes> {
    var head := AsciiBytes(EnvelopeHead(successCode));
    if |out| >= |head| + 1 && out[..|head|] == head && out[|out| - 1] == '}' as int
    then Some(out[|head|..|out| - 1])
    else None
  }

  /** The envelope loses nothing: the payload comes back out of it. */
  lemma UnwrapWrite(w: BodyWriter, b: Bytes, successCode: int)
    requires Wraps(w, successCode)
    ensures Unwrap(Write(w, b, successCode), successCode) == Some(b)
  {
  }

  /** The `errcode` field of the envelope reads back as the success code. */
  lemma EnvelopeCarriesCode(w: BodyWriter, b: Bytes, successCode: int)
    requires Wraps(w, successCode)
    ensures var out := Write(w, b, successCode);
      var field := out[11..11 + |Itoa(successCode)|];
      && (forall i | 0 <= i < |field| :: field[i] == Itoa(successCode)[i] as int)
      && ParseInt(Itoa(successCode)) == Some(successCode)
  {
    ParseItoa(successCode);
    var head := EnvelopeHead(successCode);
    assert head[11..11 + |Itoa(successCode)|] == Itoa(successCode);
  }

  /** A writer as the gateway creates it wraps successful writes. */
  lemma FreshWriterWraps(b: Bytes, successCode: int)
    ensures Wraps(Fresh, successCode)
    ensures Unwrap(Write(Fresh, b, successCode), successCode) == Some(b)
  {
    UnwrapWrite(Fresh, b, successCode);
  }

  /** Once a header went out, writes pass through untouched. */
  lemma AfterHeaderPassesThrough(w: BodyWriter, status: int, b: Bytes, successCode: int)
    ensures Write(WriteHeader(w, status), b, successCode) == b
  {
  }

  /** A recorded failing error code makes writes pass through untouched; a
      recorded success code does not. */
  lemma FailingErrorPassesThrough(w: BodyWriter, code: int, b: Bytes, successCode: int)
    requires code != successCode
    ensures Write(w.(errCode := Some(code)), b, successCode) == b
    ensures !w.done ==> Write(w.(errCode := Some(successCode)), b, successCode) != b
  {
  }
}
