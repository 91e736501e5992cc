/** Worked examples of the response decoder. */
module DecodeExamples {
  import opened Values
  import opened Client

  /** Envelopes: `data` returned verbatim, None included (no substitute
      value), and a rejected code raised with its message. */
  lemma UnwrapExamples()
    ensures Unwrap(Obj(map["code" := Int(200), "message" := Str("success"), "data" := Obj(map["a" := Int(1)])]))
            == Success(Obj(map["a" := Int(1)]))
    ensures Unwrap(Obj(map["code" := Int(200), "message" := Str("success"), "data" := Null])) == Success(Null)
    ensures Unwrap(Obj(map["code" := Int(500), "message" := Str("boom"), "data" := Null]))
            == Failure(HttpError(Int(500), Str("boom")))
    ensures Unwrap(Obj(map["code" := Bool(true), "data" := Null])) == Failure(KeyError(Str("message")))
    ensures RejectedCode(Obj(map["code" := Bool(true), "data" := Null])) == Some(Bool(true))
    ensures RejectedCode(Obj(map["code" := Int(200)])) == None
  {
  }

  /** A non-blank body declared as JSON goes to the envelope step. */
  lemma JsonBodyExample(body: string, doc: Value)
    requires body == "{...}"
    ensures Decode(Some(JsonType), body, _ => Some(doc)) == Unwrap(doc)
  {
    assert "" + body + "" == body;
    StripPadded("", body, "");
    JsonTypeIsPrimary("");
  }

  /** So does one declared as JSON with parameters after ';'. */
  lemma JsonWithParametersExample(params: string, body: string, doc: Value)
    requires body == "{...}"
    ensures Decode(Some(JsonType + [';'] + params), body, _ => Some(doc)) == Unwrap(doc)
  {
    assert "" + body + "" == body;
    StripPadded("", body, "");
    JsonTypeIsPrimary(params);
  }

  /** Plain text is returned stripped and never parsed. */
  lemma PlainTextExample(contentType: string, body: string)
    requires contentType == "text/plain" && body == " hello\n"
    ensures Decode(Some(contentType), body, _ => None) == Success(Str("hello"))
  {
    SplitNoSep(contentType, ';');
    assert body == " " + "hello" + "\n";
    StripPadded(" ", "hello", "\n");
  }
}
