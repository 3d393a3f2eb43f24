/** The diagnostic formatter of both families: `__str__(incl_type,
    incl_caller)` appends the pieces of the text to a buffer and joins it;
    `ppstr(incl_type)` is `__str__` with the caller included. The text is an
    optional `<ClassName> ` prefix, exactly one body (OK, ERR or FAIL), an
    optional reason note and an optional caller note. The two families word
    their bodies and reason notes differently. */
module Formatting {
  import opened Wrappers
  import opened PyObjects
  import opened Outcomes

  /** `"".join(parts)`. */
  function Join(parts: seq<string>): string
  {
    if |parts| == 0 then "" else Join(parts[..|parts| - 1]) + parts[|parts| - 1]
  }

  /** Joining two buffers one after the other joins their texts. */
  lemma {:induction false} JoinConcat(a: seq<string>, b: seq<string>)
    ensures Join(a + b) == Join(a) + Join(b)
    decreases |b|
  {
    if |b| == 0 {
      assert a + b == a;
    } else {
      JoinConcat(a, b[..|b| - 1]);
      assert (a + b)[..|a + b| - 1] == a + b[..|b| - 1];
    }
  }

  /** A buffer of one piece joins to that piece. */
  lemma JoinOne(a: string)
    ensures Join([a]) == a
  {
  }

  /** A buffer of two pieces joins to the two, one after the other. */
  lemma JoinTwo(a: string, b: string)
    ensures Join([a, b]) == a + b
  {
    assert [a, b][..1] == [a];
    JoinOne(a);
  }

  /** `f"<{self.__class__.__name__}> "`. */
  function TypeTag(className: string): string
  {
    "<" + className + "> "
  }

  /** `if self.reason:` — a reason is shown when it is present and not empty. */
  predicate ShowsReason(reason: Option<string>)
  {
    reason.Some? && reason.value != ""
  }

  /** `f" caller: {co_filename} {co_name}():{co_firstlineno}"`. */
  function CallerNote(loc: CodeLocation): string
  {
    " caller: " + loc.file + " " + loc.routine + "():" + NatToString(loc.firstLine)
  }

  predicate StartsWith(s: string, prefix: string)
  {
    prefix <= s
  }

  // ---------------------------------------------------------------- CResult

  /** The one body of a `CResult` text. */
  function CResultBody(o: CResult, render: Value -> string): string
  {
    if o.IsOk() then "OK result=" + render(o.result)
    else if o.HasEx() then "ERR code: " + render(o.code) + ", ex: " + render(o.ex)
    else "FAIL code: " + render(o.code)
  }

  /** The reason note of a `CResult` text. */
  function CResultReason(reason: string): string
  {
    " reason: " + reason
  }

  /** The pieces `CResult.__str__` appends to its buffer, in order: the type tag
      when asked for, the one body, the reason note when the reason is shown
      and the caller note when there is a call frame and it is asked for. */
  function CResultPieces(o: CResult, render: Value -> string, className: string, inclType: bool, inclCaller: bool): seq<string>
  {
    (if inclType then [TypeTag(className)] else [])
    + [CResultBody(o, render)]
    + (if ShowsReason(o.reason) then [CResultReason(o.reason.value)] else [])
    + (if o.callFrame.Some? && inclCaller then [CallerNote(o.callFrame.value)] else [])
  }

  /** The text `CResult.__str__` produces: its pieces, joined. */
  function CResultText(o: CResult, render: Value -> string, className: string, inclType: bool, inclCaller: bool): string
  {
    Join(CResultPieces(o, render, className, inclType, inclCaller))
  }

  /** `CResult.__str__`: the pieces are appended to `sb` one by one and joined. */
  method CResultStr(o: CResult, render: Value -> string, className: string, inclType: bool := true, inclCaller: bool := true)
    returns (s: string)
    ensures s == CResultText(o, render, className, inclType, inclCaller)
  {
    var sb: seq<string> := [];
    if inclType {
      sb := sb + [TypeTag(className)];
    }
    sb := sb + [CResultBody(o, render)];
    if ShowsReason(o.reason) {
      sb := sb + [CResultReason(o.reason.value)];
    }
    if o.callFrame.Some? && inclCaller {
      sb := sb + [CallerNote(o.callFrame.value)];
    }
    assert sb == CResultPieces(o, render, className, inclType, inclCaller);
    s := Join(sb);
  }

  /** `CResult.ppstr`: the text with the caller note, and by default without
      the class name. */
  method CResultPpStr(o: CResult, render: Value -> string, className: string, inclType: bool := false) returns (s: string)
    ensures s == CResultText(o, render, className, inclType, true)
  {
    s := CResultStr(o, render, className, inclType, true);
  }

  /** Every body starts with a capital letter (O, E or F), never with '<'. */
  lemma CResultBodyInitial(o: CResult, render: Value -> string)
    ensures |CResultBody(o, render)| > 0 && CResultBody(o, render)[0] in "OEF"
  {
  }

  /** Each kind of outcome opens its body with its own word. */
  lemma CResultBodyWord(o: CResult, render: Value -> string)
    ensures o.IsOk() ==> StartsWith(CResultBody(o, render), "OK ")
    ensures o.IsNotOk() && o.HasEx() ==> StartsWith(CResultBody(o, render), "ERR ")
    ensures o.IsNotOk() && !o.HasEx() ==> StartsWith(CResultBody(o, render), "FAIL ")
  {
  }

  /** The type tag, when asked for, is the first piece. */
  lemma CResultTagged(o: CResult, render: Value -> string, className: string, inclCaller: bool)
    ensures CResultPieces(o, render, className, true, inclCaller) ==
      [TypeTag(className)] + CResultPieces(o, render, className, false, inclCaller)
  {
  }

  /** Without the type tag, the text is the body followed by the notes. */
  lemma CResultBodyFirst(o: CResult, render: Value -> string, className: string, inclCaller: bool)
    ensures var text := CResultText(o, render, className, false, inclCaller);
      var body := CResultBody(o, render);
      |body| <= |text| && text[..|body|] == body
  {
    var pieces := CResultPieces(o, render, className, false, inclCaller);
    var body := CResultBody(o, render);
    assert pieces == [body] + pieces[1..];
    JoinConcat([body], pieces[1..]);
    assert Join([body]) == Join([]) + body;
  }

  /** Without the type tag, the text starts with the body's first letter. */
  lemma CResultFirstChar(o: CResult, render: Value -> string, className: string, inclCaller: bool)
    ensures var text := CResultText(o, render, className, false, inclCaller);
      |text| > 0 && text[0] == CResultBody(o, render)[0] && text[0] != '<'
  {
    var body := CResultBody(o, render);
    CResultBodyInitial(o, render);
    CResultBodyFirst(o, render, className, inclCaller);
    var text := CResultText(o, render, className, false, inclCaller);
    assert text[0] == text[..|body|][0];
  }

  /** The `<ClassName> ` prefix is there exactly when asked for: only then
      does the text start with '<', since every body starts with a letter. */
  lemma CResultTypePrefix(o: CResult, render: Value -> string, className: string, inclType: bool, inclCaller: bool)
    ensures var text := CResultText(o, render, className, inclType, inclCaller);
      |text| > 0 && (text[0] == '<' <==> inclType)
    ensures inclType ==>
      CResultText(o, render, className, true, inclCaller) == TypeTag(className) + CResultText(o, render, className, false, inclCaller)
  {
    CResultFirstChar(o, render, className, inclCaller);
    if inclType {
      var tag := TypeTag(className);
      var rest := CResultPieces(o, render, className, false, inclCaller);
      CResultTagged(o, render, className, inclCaller);
      JoinConcat([tag], rest);
      assert Join([tag]) == Join([]) + tag;
      assert (tag + Join(rest))[0] == '<';
    }
  }

  /** Exactly one body is written, and which one is decided by the outcome:
      OK for a success, ERR for a failure with an exception, FAIL otherwise. */
  lemma CResultBodyKind(o: CResult, render: Value -> string, className: string, inclCaller: bool)
    ensures var text := CResultText(o, render, className, false, inclCaller);
      && (StartsWith(text, "OK ") <==> o.IsOk())
      && (StartsWith(text, "ERR ") <==> o.IsNotOk() && o.HasEx())
      && (StartsWith(text, "FAIL ") <==> o.IsNotOk() && !o.HasEx())
  {
    var text := CResultText(o, render, className, false, inclCaller);
    var body := CResultBody(o, render);
    CResultBodyWord(o, render);
    CResultBodyFirst(o, render, className, inclCaller);
    CResultFirstChar(o, render, className, inclCaller);
    assert text == body + text[|body|..];
  }

  /** Without the caller, the text is the tag and body followed by the
      reason note when the reason is shown. */
  lemma CResultUnannotated(o: CResult, render: Value -> string, className: string, inclType: bool)
    ensures CResultText(o, render, className, inclType, false) ==
      ((if inclType then TypeTag(className) else "") + CResultBody(o, render))
      + (if ShowsReason(o.reason) then CResultReason(o.reason.value) else "")
  {
    var tag := if inclType then [TypeTag(className)] else [];
    var body := CResultBody(o, render);
    var note := if ShowsReason(o.reason) then [CResultReason(o.reason.value)] else [];
    assert CResultPieces(o, render, className, inclType, false) == (tag + [body]) + note;
    JoinConcat(tag + [body], note);
    JoinConcat(tag, [body]);
    JoinOne(body);
    if inclType {
      JoinOne(TypeTag(className));
    }
    if ShowsReason(o.reason) {
      JoinOne(CResultReason(o.reason.value));
    }
  }

  /** Without the caller, the text is the tag and body followed by the reason
      note, which is there exactly when the reason is present and not empty,
      and then holds the reason verbatim. */
  lemma CResultReasonNote(o: CResult, render: Value -> string, className: string, inclType: bool)
    ensures var head := (if inclType then TypeTag(className) else "") + CResultBody(o, render);
      var text := CResultText(o, render, className, inclType, false);
      && StartsWith(text, head)
      && (|text| > |head| <==> ShowsReason(o.reason))
      && (ShowsReason(o.reason) ==> text[|head|..] == CResultReason(o.reason.value))
  {
    CResultUnannotated(o, render, className, inclType);
    if ShowsReason(o.reason) {
      assert |CResultReason(o.reason.value)| > 0;
    }
  }

  /** The caller note is the last piece, and it is there exactly when the
      outcome has a call frame and the caller is asked for. Without it, the
      text does not depend on the call frame at all. */
  lemma CResultCallerNote(o: CResult, render: Value -> string, className: string, inclType: bool, frame: Option<CodeLocation>)
    ensures CResultText(o, render, className, inclType, true) ==
      CResultText(o, render, className, inclType, false) + (if o.callFrame.Some? then CallerNote(o.callFrame.value) else "")
    ensures |CResultText(o, render, className, inclType, true)| > |CResultText(o, render, className, inclType, false)| <==> o.callFrame.Some?
    ensures CResultText(o, render, className, inclType, false) == CResultText(o.(callFrame := frame), render, className, inclType, false)
  {
    var without := CResultPieces(o, render, className, inclType, false);
    if o.callFrame.Some? {
      var note := CallerNote(o.callFrame.value);
      assert CResultPieces(o, render, className, inclType, true) == without + [note];
      assert |note| > 0;
    } else {
      assert CResultPieces(o, render, className, inclType, true) == without;
    }
    assert CResultBody(o, render) == CResultBody(o.(callFrame := frame), render);
    assert without == CResultPieces(o.(callFrame := frame), render, className, inclType, false);
  }

  // ----------------------------------------------------------------- Result

  /** The one body of a `Result` text. */
  function ResultBody(o: Result, render: Value -> string): string
  {
    if o.IsOk() then "OK result: `" + render(o.result) + "`"
    else if o.HasEx() then "ERR ex: `" + render(o.ex) + "`"
    else "FAIL"
  }

  /** The reason note of a `Result` text. */
  function ResultReason(reason: string): string
  {
    " reason: `" + reason + "`"
  }

  /** The pieces `Result.__str__` appends to its buffer, in order: the type tag
      when asked for, the one body, the reason note when the reason is shown
      and the caller note when there is a call frame and it is asked for. */
  function ResultPieces(o: Result, render: Value -> string, className: string, inclType: bool, inclCaller: bool): seq<string>
  {
    (if inclType then [TypeTag(className)] else [])
    + [ResultBody(o, render)]
    + (if ShowsReason(o.reason) then [ResultReason(o.reason.value)] else [])
    + (if o.callFrame.Some? && inclCaller then [CallerNote(o.callFrame.value)] else [])
  }

  /** The text `Result.__str__` produces: its pieces, joined. */
  function ResultText(o: Result, render: Value -> string, className: string, inclType: bool, inclCaller: bool): string
  {
    Join(ResultPieces(o, render, className, inclType, inclCaller))
  }

  /** `Result.__str__`: the pieces are appended to `sb` one by one and joined. */
  method ResultStr(o: Result, render: Value -> string, className: string, inclType: bool := true, inclCaller: bool := true)
    returns (s: string)
    ensures s == ResultText(o, render, className, inclType, inclCaller)
  {
    var sb: seq<string> := [];
    if inclType {
      sb := sb + [TypeTag(className)];
    }
    sb := sb + [ResultBody(o, render)];
    if ShowsReason(o.reason) {
      sb := sb + [ResultReason(o.reason.value)];
    }
    if o.callFrame.Some? && inclCaller {
      sb := sb + [CallerNote(o.callFrame.value)];
    }
    assert sb == ResultPieces(o, render, className, inclType, inclCaller);
    s := Join(sb);
  }

  /** `Result.ppstr`: the text with the caller note, and by default without
      the class name. */
  method ResultPpStr(o: Result, render: Value -> string, className: string, inclType: bool := false) returns (s: string)
    ensures s == ResultText(o, render, className, inclType, true)
  {
    s := ResultStr(o, render, className, inclType, true);
  }

  /** Every body starts with a capital letter (O, E or F), never with '<'. */
  lemma ResultBodyInitial(o: Result, render: Value -> string)
    ensures |ResultBody(o, render)| > 0 && ResultBody(o, render)[0] in "OEF"
  {
  }

  /** Each kind of outcome opens its body with its own word. */
  lemma ResultBodyWord(o: Result, render: Value -> string)
    ensures o.IsOk() ==> StartsWith(ResultBody(o, render), "OK ")
    ensures o.IsNotOk() && o.HasEx() ==> StartsWith(ResultBody(o, render), "ERR ")
    ensures o.IsNotOk() && !o.HasEx() ==> StartsWith(ResultBody(o, render), "FAIL")
  {
  }

  /** The type tag, when asked for, is the first piece. */
  lemma ResultTagged(o: Result, render: Value -> string, className: string, inclCaller: bool)
    ensures ResultPieces(o, render, className, true, inclCaller) ==
      [TypeTag(className)] + ResultPieces(o, render, className, false, inclCaller)
  {
  }

  /** Without the type tag, the text is the body followed by the notes. */
  lemma ResultBodyFirst(o: Result, render: Value -> string, className: string, inclCaller: bool)
    ensures var text := ResultText(o, render, className, false, inclCaller);
      var body := ResultBody(o, render);
      |body| <= |text| && text[..|body|] == body
  {
    var pieces := ResultPieces(o, render, className, false, inclCaller);
    var body := ResultBody(o, render);
    assert pieces == [body] + pieces[1..];
    JoinConcat([body], pieces[1..]);
    assert Join([body]) == Join([]) + body;
  }

  /** Without the type tag, the text starts with the body's first letter. */
  lemma ResultFirstChar(o: Result, render: Value -> string, className: string, inclCaller: bool)
    ensures var text := ResultText(o, render, className, false, inclCaller);
      |text| > 0 && text[0] == ResultBody(o, render)[0] && text[0] != '<'
  {
    var body := ResultBody(o, render);
    ResultBodyInitial(o, render);
    ResultBodyFirst(o, render, className, inclCaller);
    var text := ResultText(o, render, className, false, inclCaller);
    assert text[0] == text[..|body|][0];
  }

  /** The `<ClassName> ` prefix is there exactly when asked for: only then
      does the text start with '<', since every body starts with a letter. */
  lemma ResultTypePrefix(o: Result, render: Value -> string, className: string, inclType: bool, inclCaller: bool)
    ensures var text := ResultText(o, render, className, inclType, inclCaller);
      |text| > 0 && (text[0] == '<' <==> inclType)
    ensures inclType ==>
      ResultText(o, render, className, true, inclCaller) == TypeTag(className) + ResultText(o, render, className, false, inclCaller)
  {
    ResultFirstChar(o, render, className, inclCaller);
    if inclType {
      var tag := TypeTag(className);
      var rest := ResultPieces(o, render, className, false, inclCaller);
      ResultTagged(o, render, className, inclCaller);
      JoinConcat([tag], rest);
      assert Join([tag]) == Join([]) + tag;
      assert (tag + Join(rest))[0] == '<';
    }
  }

  /** Exactly one body is written, and which one is decided by the outcome:
      OK for a success, ERR for a failure with an exception, FAIL otherwise. */
  lemma ResultBodyKind(o: Result, render: Value -> string, className: string, inclCaller: bool)
    ensures var text := ResultText(o, render, className, false, inclCaller);
      && (StartsWith(text, "OK ") <==> o.IsOk())
      && (StartsWith(text, "ERR ") <==> o.IsNotOk() && o.HasEx())
      && (StartsWith(text, "FAIL") <==> o.IsNotOk() && !o.HasEx())
  {
    var text := ResultText(o, render, className, false, inclCaller);
    var body := ResultBody(o, render);
    ResultBodyWord(o, render);
    ResultBodyFirst(o, render, className, inclCaller);
    ResultFirstChar(o, render, className, inclCaller);
    assert text == body + text[|body|..];
  }

  /** Without the caller, the text is the tag and body followed by the
      reason note when the reason is shown. */
  lemma ResultUnannotated(o: Result, render: Value -> string, className: string, inclType: bool)
    ensures ResultText(o, render, className, inclType, false) ==
      ((if inclType then TypeTag(className) else "") + ResultBody(o, render))
      + (if ShowsReason(o.reason) then ResultReason(o.reason.value) else "")
  {
    var tag := if inclType then [TypeTag(className)] else [];
    var body := ResultBody(o, render);
    var note := if ShowsReason(o.reason) then [ResultReason(o.reason.value)] else [];
    assert ResultPieces(o, render, className, inclType, false) == (tag + [body]) + note;
    JoinConcat(tag + [body], note);
    JoinConcat(tag, [body]);
    JoinOne(body);
    if inclType {
      JoinOne(TypeTag(className));
    }
    if ShowsReason(o.reason) {
      JoinOne(ResultReason(o.reason.value));
    }
  }

  /** Without the caller, the text is the tag and body followed by the reason
      note, which is there exactly when the reason is present and not empty,
      and then holds the reason verbatim. */
  lemma ResultReasonNote(o: Result, render: Value -> string, className: string, inclType: bool)
    ensures var head := (if inclType then TypeTag(className) else "") + ResultBody(o, render);
      var text := ResultText(o, render, className, inclType, false);
      && StartsWith(text, head)
      && (|text| > |head| <==> ShowsReason(o.reason))
      && (ShowsReason(o.reason) ==> text[|head|..] == ResultReason(o.reason.value))
  {
    ResultUnannotated(o, render, className, inclType);
    if ShowsReason(o.reason) {
      assert |ResultReason(o.reason.value)| > 0;
    }
  }

  /** The caller note is the last piece, and it is there exactly when the
      outcome has a call frame and the caller is asked for. Without it, the
      text does not depend on the call frame at all. */
  lemma ResultCallerNote(o: Result, render: Value -> string, className: string, inclType: bool, frame: Option<CodeLocation>)
    ensures ResultText(o, render, className, inclType, true) ==
      ResultText(o, render, className, inclType, false) + (if o.callFrame.Some? then CallerNote(o.callFrame.value) else "")
    ensures |ResultText(o, render, className, inclType, true)| > |ResultText(o, render, className, inclType, false)| <==> o.callFrame.Some?
    ensures ResultText(o, render, className, inclType, false) == ResultText(o.(callFrame := frame), render, className, inclType, false)
  {
    var without := ResultPieces(o, render, className, inclType, false);
    if o.callFrame.Some? {
      var note := CallerNote(o.callFrame.value);
      assert ResultPieces(o, render, className, inclType, true) == without + [note];
      assert |note| > 0;
    } else {
      assert ResultPieces(o, render, className, inclType, true) == without;
    }
    assert ResultBody(o, render) == ResultBody(o.(callFrame := frame), render);
    assert without == ResultPieces(o.(callFrame := frame), render, className, inclType, false);
  }
}
