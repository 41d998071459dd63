/**
 * The two halves of stream mode meeting in the page: the worker's settlement
 * scripts run against the connection table the bootstrap script created, and
 * the page's chunk hooks then see each settlement through `getStreamChunks`
 * and a reader.
 */
module Protocol {
  import opened Wrappers
  import opened Text
  import opened Js
  import opened Typings
  import opened StreamRuntime
  import opened Use
  import opened Chunks
  import opened Render
  import opened StreamSession

  /** The view a reader gives of a connection once the call `c` has settled it. */
  function SettledView<V>(c: ClientCall<V>): (s: ChunkState<V>)
    ensures s.Status() == if c.ResolveCall? then Resolved else Rejected
    ensures c.ResolveCall? ==> s == ResolvedState(c.value)
    ensures c.RejectCall? && c.message.Some? ==> s == RejectedState(c.message)
    ensures c.RejectCall? && c.message.None? ==> s == RejectedState(Some(""))
  {
    match c
    case ResolveCall(_, v) => ResolvedState(v)
    case RejectCall(_, m) => RejectedState(Some(ChunkError(m).message))
  }

  /** The settlement a call gives the connection's promise, if it is the first. */
  function Delivery<V>(c: ClientCall<V>): Settlement<V>
  {
    match c
    case ResolveCall(_, v) => Fulfilled(v)
    case RejectCall(_, m) => RejectedWith(ErrorReason(ChunkError(m)))
  }

  /**
   * A reader that was waiting on the promise sees, once the delivery
   * arrives, the same view as a reader built after the call.
   */
  lemma DeliveryGivesSettledView<V>(c: ClientCall<V>, p: Promise<V>)
    ensures ExpectedState(PromiseChunk(p), Some(Delivery(c))) == SettledView(c)
  {
  }

  /**
   * The call a settlement script is written for carries what the worker's
   * promise settled to into the view a reader gives: the value it fulfilled
   * with, or the message of the Error it rejected with; a reason without a
   * message becomes the empty message. Whether the page gets that call back
   * from the script text is `PageRunsScript`'s question.
   */
  lemma WorkerSettlementReachesReader<V>(key: string, s: Settlement<V>)
    ensures s.Fulfilled? ==> SettledView(SettlementCall(key, s)) == ResolvedState(s.value)
    ensures s.RejectedWith? && s.reason.ErrorReason? ==>
              SettledView(SettlementCall(key, s)) == RejectedState(Some(s.reason.error.message))
    ensures s.RejectedWith? && MessageOf(s.reason).None? ==>
              SettledView(SettlementCall(key, s)) == RejectedState(Some(""))
  {
  }

  /**
   * How the page's script engine evaluates the argument text of a call: the
   * value or the message string the text denotes, or nothing when evaluating
   * it throws. `JSON.stringify` output is such text; what it denotes need not
   * be what was serialised (`NaN` reads back as `null`, a `Date` as a string).
   */
  datatype Evaluator<V> = Evaluator(value: string -> Option<V>, text: string -> Option<string>)

  /** ASCII letters, digits, `_`, `$`, and any character beyond ASCII. */
  predicate IdentifierChar(c: char)
  {
    'a' <= c <= 'z' || 'A' <= c <= 'Z' || '0' <= c <= '9' || c == '_' || c == '$' || c > '\U{7F}'
  }

  /** A key that can follow `.` in a member access: identifier characters, not starting with a digit. */
  predicate Identifier(key: string)
  {
    && |key| > 0
    && !('0' <= key[0] <= '9')
    && forall i :: 0 <= i < |key| ==> IdentifierChar(key[i])
  }

  /** The states of the HTML tokenizer inside a script element that decide where the element ends. */
  datatype ScriptState = ScriptData | Escaped | DoubleEscaped

  /**
   * Where the HTML tokenizer finds the element's end tag, reading `s` from
   * `i` in state `st`. `<!--` escapes (its own dashes may already close it
   * again, as in `<!-->`); inside an escape a `<script>` double-escapes, and
   * then a `</script>` only returns to the escape; `-->` leaves either.
   * Nothing when no end tag is reached.
   */
  function ScriptEnd(s: string, i: nat, st: ScriptState): (r: Option<nat>)
    decreases |s| - i
    ensures r.Some? ==> i <= r.value && OccursAt(s, "</script>", r.value)
  {
    if i >= |s| then None
    else match st
      case ScriptData =>
        if OccursAt(s, "</script>", i) then Some(i)
        else if OccursAt(s, "<!--", i) then ScriptEnd(s, i + 2, Escaped)
        else ScriptEnd(s, i + 1, ScriptData)
      case Escaped =>
        if OccursAt(s, "</script>", i) then Some(i)
        else if OccursAt(s, "-->", i) then ScriptEnd(s, i + 3, ScriptData)
        else if OccursAt(s, "<script>", i) then ScriptEnd(s, i + 8, DoubleEscaped)
        else ScriptEnd(s, i + 1, Escaped)
      case DoubleEscaped =>
        if OccursAt(s, "</script>", i) then ScriptEnd(s, i + 9, Escaped)
        else if OccursAt(s, "-->", i) then ScriptEnd(s, i + 3, ScriptData)
        else ScriptEnd(s, i + 1, DoubleEscaped)
  }

  /**
   * The HTML parser's script element at the head of `html`: the text after
   * `<script>` up to where the tokenizer finds the end tag, or nothing when
   * the element is not complete.
   */
  function ScriptBody(html: string): Option<string>
  {
    if |html| < |"<script>"| || html[..|"<script>"|] != "<script>" then None
    else
      var rest := html[|"<script>"|..];
      match ScriptEnd(rest, 0, ScriptData)
      case None => None
      case Some(i) => Some(rest[..i])
  }

  /**
   * The call a script body makes: `window.__SWSR_CHUNK_CONNECTIONS__.<key>.resolve(<arg>)`
   * or `.reject(<arg>)`, with an empty argument list giving no message.
   * Nothing when the body is not such a call on an identifier key, or when
   * its argument does not evaluate.
   */
  function ParseCall<V>(body: string, ev: Evaluator<V>): Option<ClientCall<V>>
  {
    var table := "window.__SWSR_CHUNK_CONNECTIONS__.";
    if |body| < |table| || body[..|table|] != table then None
    else ParseMember(body[|table|..], ev)
  }

  /** `<key>.<invocation>`, the key ending at the first `.`. */
  function ParseMember<V>(rest: string, ev: Evaluator<V>): Option<ClientCall<V>>
  {
    match IndexOf(rest, ".")
    case None => None
    case Some(d) => if Identifier(rest[..d]) then ParseInvocation(rest[..d], rest[d + 1..], ev) else None
  }

  /** `resolve(<arg>)` or `reject(<arg>)` on the connection for `key`. */
  function ParseInvocation<V>(key: string, call: string, ev: Evaluator<V>): Option<ClientCall<V>>
  {
    if |call| == 0 || call[|call| - 1] != ')' then None
    else if |call| >= 9 && call[..8] == "resolve(" then
      match ev.value(call[8..|call| - 1])
      case None => None
      case Some(v) => Some(ResolveCall(key, v))
    else if |call| >= 8 && call[..7] == "reject(" then
      var arg := call[7..|call| - 1];
      if arg == "" then Some(RejectCall(key, None))
      else match ev.text(arg)
        case None => None
        case Some(m) => Some(RejectCall(key, Some(m)))
    else None
  }

  /** The call the page makes when it runs the script element at the head of `html`; nothing when it throws first. */
  function PageCall<V>(html: string, ev: Evaluator<V>): Option<ClientCall<V>>
  {
    match ScriptBody(html)
    case None => None
    case Some(body) => ParseCall(body, ev)
  }

  /** A tag that opens with `<` and holds no `)` does not start before the `)` closing an argument without it. */
  lemma NoTagBefore(u: string, a: string, p: string)
    requires '<' !in u && !Contains(a, p) && |p| > 0 && p[0] == '<' && ')' !in p
    ensures forall j: nat :: j < |u| + |a| + 1 ==> !OccursAt(u + a + ")" + "</script>", p, j)
  {
    var s := u + a + ")" + "</script>";
    forall j: nat | j < |u| + |a| + 1 ensures !OccursAt(s, p, j) {
      if j < |u| {
        assert s[j] == u[j];
      } else if j + |p| <= |u| + |a| {
        assert s[j..j + |p|] == a[j - |u|..j - |u| + |p|];
        assert !OccursAt(a, p, j - |u|);
      } else if j + |p| <= |s| {
        var k := |u| + |a| - j;
        assert s[j + k] == ')' && s[j..j + |p|][k] == s[j + k];
      }
    }
  }

  /** Before the first `</script>` of the argument, no tag starts, given no `<!--` ahead of it. */
  lemma NoTagInside(u: string, a: string, i: nat)
    requires '<' !in u && FirstAt(a, "</script>", i) && !Contains(a[..i], "<!--")
    ensures forall j: nat :: j < |u| + i ==>
      !OccursAt(u + a + ")" + "</script>", "</script>", j) && !OccursAt(u + a + ")" + "</script>", "<!--", j)
    ensures OccursAt(u + a + ")" + "</script>", "</script>", |u| + i)
  {
    var s, p, o := u + a + ")" + "</script>", "</script>", "<!--";
    assert s[|u| + i..|u| + i + |p|] == a[i..i + |p|];
    assert s[|u| + i] == a[i..i + |p|][0] == '<';
    forall j: nat | j < |u| + i ensures !OccursAt(s, p, j) && !OccursAt(s, o, j) {
      if j < |u| {
        assert s[j] == u[j];
        NotAt(s, p, j, 0);
        NotAt(s, o, j, 0);
      } else {
        OccursInCall(u, a, p, j - |u|);
        if j + |o| <= |u| + i {
          OccursInCall(u, a, o, j - |u|);
          OccursInPrefix(a, i, o, j - |u|);
        } else {
          var d := |u| + i - j;
          assert d == 1 || d == 2 || d == 3;
          NotAt(s, o, j, d);
        }
      }
    }
  }

  /** Text inside the argument of a call is where it was in the argument. */
  lemma OccursInCall(u: string, a: string, p: string, j: nat)
    requires j + |p| <= |a|
    ensures OccursAt(u + a + ")" + "</script>", p, |u| + j) == OccursAt(a, p, j)
  {
    assert (u + a + ")" + "</script>")[|u| + j..|u| + j + |p|] == a[j..j + |p|];
  }

  /** Text inside a prefix is where it was in the whole. */
  lemma OccursInPrefix(a: string, i: nat, p: string, j: nat)
    requires j + |p| <= i <= |a|
    ensures OccursAt(a[..i], p, j) == OccursAt(a, p, j)
  {
    assert a[..i][j..j + |p|] == a[j..j + |p|];
  }

  /** In script data, text where no tag starts is read past. */
  lemma {:induction false} ScanData(s: string, i: nat, k: nat)
    requires i <= k <= |s|
    requires forall j: nat :: i <= j < k ==> !OccursAt(s, "</script>", j) && !OccursAt(s, "<!--", j)
    ensures ScriptEnd(s, i, ScriptData) == ScriptEnd(s, k, ScriptData)
    decreases k - i
  {
    if i < k {
      ScanData(s, i + 1, k);
    }
  }

  /** In script data, text without `<` is read past. */
  lemma {:induction false} ScanPlain(s: string, i: nat, k: nat)
    requires i <= k <= |s|
    requires forall j :: i <= j < k ==> s[j] != '<'
    ensures ScriptEnd(s, i, ScriptData) == ScriptEnd(s, k, ScriptData)
    decreases k - i
  {
    if i < k {
      NotAt(s, "</script>", i, 0);
      NotAt(s, "<!--", i, 0);
      ScanPlain(s, i + 1, k);
    }
  }

  /** Double-escaped, text with neither `<` nor `-` is read past. */
  lemma {:induction false} ScanDouble(s: string, i: nat, k: nat)
    requires i <= k <= |s|
    requires forall j :: i <= j < k ==> s[j] != '<' && s[j] != '-'
    ensures ScriptEnd(s, i, DoubleEscaped) == ScriptEnd(s, k, DoubleEscaped)
    decreases k - i
  {
    if i < k {
      NotAt(s, "</script>", i, 0);
      NotAt(s, "-->", i, 0);
      ScanDouble(s, i + 1, k);
    }
  }

  /** An identifier holds neither `.` nor `<`. */
  lemma IdentifierPlain(key: string)
    requires Identifier(key)
    ensures '.' !in key && '<' !in key
  {
    forall i | 0 <= i < |key| ensures key[i] != '.' && key[i] != '<' {
      assert IdentifierChar(key[i]);
    }
  }

  /** The first `.` after a key free of dots is the one that follows it. */
  lemma DotAfterKey(key: string, t: string)
    requires '.' !in key
    ensures FirstAt(key + "." + t, ".", |key|)
  {
    var s := key + "." + t;
    forall j: nat | j < |key| ensures !OccursAt(s, ".", j) {
      assert s[j..j + 1][0] == key[j];
    }
  }

  /** A script element ends where the tokenizer finds its end tag. */
  lemma ScriptBodyAround(body: string, k: nat)
    requires ScriptEnd(body + "</script>", 0, ScriptData) == Some(k)
    ensures ScriptBody("<script>" + body + "</script>") == Some((body + "</script>")[..k])
  {
    var open, close := "<script>", "</script>";
    var html := open + body + close;
    assert html[..|open|] == open;
    assert html[|open|..] == body + close;
  }

  /**
   * The script element of a call on an identifier key ends after the call,
   * unless the argument holds `</script>` or `<!--`.
   */
  lemma ScriptBodyOf<V>(c: ClientCall<V>, ser: Serializer<V>)
    requires Identifier(c.key) && !Contains(ArgText(c, ser), "</script>") && !Contains(ArgText(c, ser), "<!--")
    ensures ScriptBody(ScriptText(c, ser)) == Some(CallText(c, ser))
  {
    var u := "window.__SWSR_CHUNK_CONNECTIONS__." + c.key + "." + MethodName(c) + "(";
    IdentifierPlain(c.key);
    TableNoTag();
    assert '<' !in MethodName(c);
    EndAfterArg(u, ArgText(c, ser));
    ScriptBodyAround(CallText(c, ser), |CallText(c, ser)|);
    assert (CallText(c, ser) + "</script>")[..|CallText(c, ser)|] == CallText(c, ser);
  }

  lemma EndAfterArg(u: string, a: string)
    requires '<' !in u && !Contains(a, "</script>") && !Contains(a, "<!--")
    ensures ScriptEnd(u + a + ")" + "</script>", 0, ScriptData) == Some(|u| + |a| + 1)
  {
    var s := u + a + ")" + "</script>";
    NoTagBefore(u, a, "</script>");
    NoTagBefore(u, a, "<!--");
    ScanData(s, 0, |u| + |a| + 1);
    assert s[|u| + |a| + 1..] == "</script>";
  }

  /**
   * A value or message whose JSON holds `</script>`, with no `<!--` ahead of
   * it, ends the script element inside the argument: the page's script is
   * the call cut off there, without its closing `)`.
   */
  lemma ClosingTagEndsScript<V>(c: ClientCall<V>, ser: Serializer<V>)
    requires Identifier(c.key) && Contains(ArgText(c, ser), "</script>")
    requires !Contains(ArgText(c, ser)[..IndexOf(ArgText(c, ser), "</script>").value], "<!--")
    ensures var u := "window.__SWSR_CHUNK_CONNECTIONS__." + c.key + "." + MethodName(c) + "(";
      var i := IndexOf(ArgText(c, ser), "</script>").value;
      ScriptBody(ScriptText(c, ser)) == Some(u + ArgText(c, ser)[..i])
  {
    var u := "window.__SWSR_CHUNK_CONNECTIONS__." + c.key + "." + MethodName(c) + "(";
    IdentifierPlain(c.key);
    TableNoTag();
    assert '<' !in MethodName(c);
    CutAtClose(u, ArgText(c, ser), IndexOf(ArgText(c, ser), "</script>").value);
  }

  lemma CutAtClose(u: string, a: string, i: nat)
    requires '<' !in u && FirstAt(a, "</script>", i) && !Contains(a[..i], "<!--")
    ensures ScriptBody("<script>" + (u + a + ")") + "</script>") == Some(u + a[..i])
  {
    EndInsideArg(u, a, i);
    ScriptBodyAround(u + a + ")", |u| + i);
    PrefixWithin(u, a, ")", "</script>", i);
  }

  lemma EndInsideArg(u: string, a: string, i: nat)
    requires '<' !in u && FirstAt(a, "</script>", i) && !Contains(a[..i], "<!--")
    ensures ScriptEnd(u + a + ")" + "</script>", 0, ScriptData) == Some(|u| + i)
  {
    NoTagInside(u, a, i);
    ScanData(u + a + ")" + "</script>", 0, |u| + i);
  }

  /**
   * A value or message whose JSON holds `<!--<script>`, with no `<` before
   * it and neither `<` nor `-` after it (the JSON of the string
   * `"<!--<script>"`, say), double-escapes the script: its own `</script>`
   * does not end the element, so the script text makes no call.
   */
  lemma CommentOpenRunsOn<V>(c: ClientCall<V>, ser: Serializer<V>, ev: Evaluator<V>, p: string, q: string)
    requires Identifier(c.key) && ArgText(c, ser) == p + "<!--" + "<script>" + q
    requires '<' !in p && '<' !in q && '-' !in q
    ensures ScriptBody(ScriptText(c, ser)) == None
    ensures PageCall(ScriptText(c, ser), ev) == None
  {
    var u := "window.__SWSR_CHUNK_CONNECTIONS__." + c.key + "." + MethodName(c) + "(";
    IdentifierPlain(c.key);
    TableNoTag();
    assert '<' !in MethodName(c);
    EscapeInCall(u, p, q);
    ScriptBodyNone(CallText(c, ser));
  }

  lemma EscapeInCall(u: string, p: string, q: string)
    requires '<' !in u && '<' !in p && '<' !in q && '-' !in q
    ensures ScriptEnd(u + (p + "<!--" + "<script>" + q) + ")" + "</script>", 0, ScriptData) == None
  {
    assert u + (p + "<!--" + "<script>" + q) + ")" + "</script>" == (u + p) + "<!--" + "<script>" + q + ")" + "</script>";
    assert '<' !in u + p;
    DoubleEscapeText(u + p, q);
  }

  /** A script element the tokenizer never closes gives no script. */
  lemma ScriptBodyNone(body: string)
    requires ScriptEnd(body + "</script>", 0, ScriptData) == None
    ensures ScriptBody("<script>" + body + "</script>") == None
  {
    var html := "<script>" + body + "</script>";
    assert html[..|"<script>"|] == "<script>";
    assert html[|"<script>"|..] == body + "</script>";
  }

  /** The tokenizer never closes `h + "<!--<script>" + q + ")</script>"` when `h` has no `<` and `q` neither `<` nor `-`. */
  lemma DoubleEscapeText(h: string, q: string)
    requires '<' !in h && '<' !in q && '-' !in q
    ensures ScriptEnd(h + "<!--" + "<script>" + q + ")" + "</script>", 0, ScriptData) == None
  {
    var s, k := h + "<!--" + "<script>" + q + ")" + "</script>", |h|;
    assert s[k..k + 4] == "<!--";
    assert s[k + 4..k + 12] == "<script>";
    assert s[|s| - 9..] == "</script>";
    forall j | 0 <= j < k ensures s[j] != '<' {
      assert s[j] == h[j];
    }
    forall j | k + 12 <= j < |s| - 9 ensures s[j] != '<' && s[j] != '-' {
      if j < |s| - 10 {
        assert s[j] == q[j - k - 12];
      }
    }
    DoubleEscapeScan(s, k);
  }

  /** `p` does not start at `i` when one of its characters differs there. */
  lemma NotAt(s: string, p: string, i: nat, d: nat)
    requires d < |p| && i + d < |s| && s[i + d] != p[d]
    ensures !OccursAt(s, p, i)
  {
    if i + |p| <= |s| {
      assert s[i..i + |p|][d] == s[i + d];
    }
  }

  /**
   * The tokenizer's run over text that has no `<` before `<!--<script>` at
   * `k` and neither `<` nor `-` after it up to a final `</script>`: escaped,
   * double-escaped, and never closed.
   */
  lemma DoubleEscapeScan(s: string, k: nat)
    requires k + 21 <= |s|
    requires forall j :: 0 <= j < k ==> s[j] != '<'
    requires s[k..k + 4] == "<!--" && s[k + 4..k + 12] == "<script>"
    requires forall j :: k + 12 <= j < |s| - 9 ==> s[j] != '<' && s[j] != '-'
    requires s[|s| - 9..] == "</script>"
    ensures ScriptEnd(s, 0, ScriptData) == None
  {
    ScanPlain(s, 0, k);
    assert s[k + 2] == s[k..k + 4][2] && s[k + 3] == s[k..k + 4][3];
    OpenComment(s, k);
    EnterDoubleEscape(s, k + 2);
    ScanDouble(s, k + 12, |s| - 9);
    CloseInDoubleEscape(s);
  }

  /** `<!--` in script data escapes, two characters on. */
  lemma OpenComment(s: string, k: nat)
    requires k + 4 <= |s| && s[k..k + 4] == "<!--"
    ensures ScriptEnd(s, k, ScriptData) == ScriptEnd(s, k + 2, Escaped)
  {
    assert s[k + 1] == s[k..k + 4][1];
    NotAt(s, "</script>", k, 1);
  }

  /** The dashes of `<!--` followed by `<script>` double-escape. */
  lemma EnterDoubleEscape(s: string, k: nat)
    requires k + 10 <= |s| && s[k] == '-' && s[k + 1] == '-' && s[k + 2..k + 10] == "<script>"
    ensures ScriptEnd(s, k, Escaped) == ScriptEnd(s, k + 10, DoubleEscaped)
  {
    assert s[k + 2] == s[k + 2..k + 10][0];
    assert s[k + 3] == s[k + 2..k + 10][1];
    NotAt(s, "</script>", k, 0);
    NotAt(s, "-->", k, 2);
    NotAt(s, "<script>", k, 0);
    NotAt(s, "</script>", k + 1, 0);
    NotAt(s, "-->", k + 1, 1);
    NotAt(s, "<script>", k + 1, 0);
    NotAt(s, "</script>", k + 2, 1);
    NotAt(s, "-->", k + 2, 0);
    assert ScriptEnd(s, k + 1, Escaped) == ScriptEnd(s, k + 2, Escaped);
  }

  /** A final `</script>` in the double-escaped state only returns to the escape, and the text ends. */
  lemma CloseInDoubleEscape(s: string)
    requires |s| >= 9 && s[|s| - 9..] == "</script>"
    ensures ScriptEnd(s, |s| - 9, DoubleEscaped) == None
  {
  }

  lemma PrefixWithin(u: string, a: string, x: string, y: string, i: nat)
    requires i <= |a|
    ensures (u + a + x + y)[..|u| + i] == u + a[..i]
  {
    assert (u + a + x + y)[..|u| + i] == (u + a)[..|u| + i];
  }

  lemma TableNoTag()
    ensures '<' !in "window.__SWSR_CHUNK_CONNECTIONS__."
  {
  }

  /** The call text, grouped as table, key, dot, method call. */
  lemma CallTextSplit<V>(c: ClientCall<V>, ser: Serializer<V>)
    ensures CallText(c, ser)
         == "window.__SWSR_CHUNK_CONNECTIONS__." + (c.key + "." + (MethodName(c) + "(" + ArgText(c, ser) + ")"))
  {
  }

  lemma ParseTable<V>(rest: string, ev: Evaluator<V>)
    ensures ParseCall("window.__SWSR_CHUNK_CONNECTIONS__." + rest, ev) == ParseMember(rest, ev)
  {
    var table := "window.__SWSR_CHUNK_CONNECTIONS__.";
    assert (table + rest)[..|table|] == table && (table + rest)[|table|..] == rest;
  }

  lemma ParseKey<V>(key: string, call: string, ev: Evaluator<V>)
    requires Identifier(key)
    ensures ParseMember(key + "." + call, ev) == ParseInvocation(key, call, ev)
  {
    var rest := key + "." + call;
    IdentifierPlain(key);
    DotAfterKey(key, call);
    var d := IndexOf(rest, ".");
    FirstAtUnique(rest, ".", d.value, |key|);
    assert rest[..|key|] == key && rest[|key| + 1..] == call;
  }

  lemma ParseResolve<V>(key: string, arg: string, ev: Evaluator<V>)
    ensures ParseInvocation(key, "resolve" + "(" + arg + ")", ev)
         == if ev.value(arg).Some? then Some(ResolveCall(key, ev.value(arg).value)) else None
  {
    var call := "resolve" + "(" + arg + ")";
    assert call[..8] == "resolve(" && call[8..|call| - 1] == arg;
  }

  lemma ParseReject<V>(key: string, arg: string, ev: Evaluator<V>)
    ensures ParseInvocation(key, "reject" + "(" + arg + ")", ev)
         == if arg == "" then Some(RejectCall(key, None))
            else if ev.text(arg).Some? then Some(RejectCall(key, ev.text(arg)))
            else None
  {
    var call := "reject" + "(" + arg + ")";
    assert call[2] == 'j';
    assert call[..7] == "reject(" && call[7..|call| - 1] == arg;
  }

  /**
   * The page's call from a script written for `c`, as long as the key is an
   * identifier and the argument text holds neither `</script>` nor `<!--`:
   * the same method on the same key, with whatever the argument text
   * evaluates to.
   */
  lemma PageRunsScript<V>(c: ClientCall<V>, ser: Serializer<V>, ev: Evaluator<V>)
    requires Identifier(c.key) && !Contains(ArgText(c, ser), "</script>") && !Contains(ArgText(c, ser), "<!--")
    ensures c.ResolveCall? ==>
      PageCall(ScriptText(c, ser), ev)
      == if ev.value(ser.value(c.value)).Some? then Some(ResolveCall(c.key, ev.value(ser.value(c.value)).value)) else None
    ensures c.RejectCall? && ArgText(c, ser) == "" ==> PageCall(ScriptText(c, ser), ev) == Some(RejectCall(c.key, None))
    ensures c.RejectCall? && ArgText(c, ser) != "" ==>
      PageCall(ScriptText(c, ser), ev)
      == if ev.text(ArgText(c, ser)).Some? then Some(RejectCall(c.key, ev.text(ArgText(c, ser)))) else None
  {
    ScriptBodyOf(c, ser);
    CallTextSplit(c, ser);
    var call := MethodName(c) + "(" + ArgText(c, ser) + ")";
    ParseTable(c.key + "." + call, ev);
    ParseKey(c.key, call, ev);
    if c.ResolveCall? {
      ParseResolve(c.key, ArgText(c, ser), ev);
    } else {
      ParseReject(c.key, ArgText(c, ser), ev);
    }
  }

  /**
   * The page reads back what the worker serialised: evaluating the argument
   * text gives the value or the message again, the message's JSON is never
   * empty (a JSON string is quoted), and the text holds neither `</script>`
   * nor `<!--`, so the element ends right after the call.
   */
  ghost predicate ReadsBack<V>(c: ClientCall<V>, ser: Serializer<V>, ev: Evaluator<V>)
  {
    && !Contains(ArgText(c, ser), "</script>")
    && !Contains(ArgText(c, ser), "<!--")
    && (c.ResolveCall? ==> ev.value(ser.value(c.value)) == Some(c.value))
    && (c.RejectCall? && c.message.Some? ==>
          ser.text(c.message.value) != "" && ev.text(ser.text(c.message.value)) == c.message)
  }

  /** When the serialisation reads back, the page makes exactly the call the script was written for. */
  lemma ScriptReadsBack<V>(c: ClientCall<V>, ser: Serializer<V>, ev: Evaluator<V>)
    requires Identifier(c.key) && ReadsBack(c, ser, ev)
    ensures PageCall(ScriptText(c, ser), ev) == Some(c)
  {
    PageRunsScript(c, ser, ev);
  }

  /**
   * The whole path from the worker's promise to the page: for an identifier
   * key and a settlement whose serialisation reads back, running the script
   * text makes the settlement's call, and a reader then shows the value, the
   * Error's message, or the empty message for a reason without one.
   */
  lemma SettlementScriptReachesReader<V>(key: string, s: Settlement<V>, ser: Serializer<V>, ev: Evaluator<V>)
    requires Identifier(key) && ReadsBack(SettlementCall(key, s), ser, ev)
    ensures PageCall(SettlementScript(key, s, ser), ev) == Some(SettlementCall(key, s))
    ensures s.Fulfilled? ==> SettledView(PageCall(SettlementScript(key, s, ser), ev).value) == ResolvedState(s.value)
    ensures s.RejectedWith? && s.reason.ErrorReason? ==>
              SettledView(PageCall(SettlementScript(key, s, ser), ev).value) == RejectedState(Some(s.reason.error.message))
    ensures s.RejectedWith? && MessageOf(s.reason).None? ==>
              SettledView(PageCall(SettlementScript(key, s, ser), ev).value) == RejectedState(Some(""))
  {
    ScriptReadsBack(SettlementCall(key, s), ser, ev);
    WorkerSettlementReachesReader(key, s);
  }

  /**
   * The page running a settlement script: `resolve` or `reject` on the
   * connection the script names. It throws when the table or the name is
   * missing; otherwise the connection now projects to the settled view.
   */
  method RunScript<V>(registry: Registry<V>, c: ClientCall<V>) returns (threw: bool)
    requires registry.Valid()
    modifies registry.Footprint()
    ensures registry.Valid() && registry.connections == old(registry.connections)
    ensures threw <==> registry.connections.None? || c.key !in registry.connections.value
    ensures !threw ==> ExpectedState(Projection(registry.connections.value[c.key]), None) == SettledView(c)
    ensures !threw && old(registry.connections.value[c.key].promise.settled).None? ==>
              registry.connections.value[c.key].promise.settled == Some(Delivery(c))
    ensures threw ==> forall n :: registry.connections.Some? && n in registry.connections.value ==>
              unchanged(registry.connections.value[n], registry.connections.value[n].promise)
    ensures forall n :: registry.connections.Some? && n in registry.connections.value && n != c.key ==>
              unchanged(registry.connections.value[n], registry.connections.value[n].promise)
  {
    match c
    case ResolveCall(key, v) =>
      threw := registry.Resolve(key, v);
    case RejectCall(key, m) =>
      threw := registry.Reject(key, m);
  }

  /**
   * The page running the text of a settlement script: a script it cannot
   * read as a call throws before changing anything; otherwise it makes that
   * call, as `RunScript`.
   */
  method RunScriptText<V>(registry: Registry<V>, html: string, ev: Evaluator<V>) returns (threw: bool)
    requires registry.Valid()
    modifies registry.Footprint()
    ensures registry.Valid() && registry.connections == old(registry.connections)
    ensures threw <==> PageCall(html, ev).None? || registry.connections.None?
                       || PageCall(html, ev).value.key !in registry.connections.value
    ensures !threw ==> ExpectedState(Projection(registry.connections.value[PageCall(html, ev).value.key]), None)
                       == SettledView(PageCall(html, ev).value)
    ensures forall n :: registry.connections.Some? && n in registry.connections.value
                        && (threw || n != PageCall(html, ev).value.key) ==>
              unchanged(registry.connections.value[n], registry.connections.value[n].promise)
  {
    var call := PageCall(html, ev);
    if call.None? {
      threw := true;
    } else {
      threw := RunScript(registry, call.value);
    }
  }

  /**
   * A settlement script that ran before the page read its chunks: the chunk
   * is already settled and a fresh reader shows the settled view at once.
   */
  method SettledChunkReachesReader<V>(registry: Registry<V>, c: ClientCall<V>) returns (view: ChunkState<V>)
    requires registry.Valid() && registry.connections.Some? && c.key in registry.connections.value
    modifies registry.Footprint()
    ensures view == SettledView(c)
  {
    var threw := RunScript(registry, c);
    var chunks := GetStreamChunks(registry);
    var reader := new Reader(chunks.value[c.key]);
    view := reader.Read();
  }

  /**
   * A settlement script that runs after the page read a Pending chunk: the
   * reader first suspends on the connection's promise, and once the promise
   * delivers the settlement it shows the same view.
   */
  method PendingChunkSettlesLater<V>(registry: Registry<V>, c: ClientCall<V>)
    returns (before: ChunkState<V>, after: ChunkState<V>)
    requires registry.Valid() && registry.connections.Some? && c.key in registry.connections.value
    requires registry.connections.value[c.key].status == Pending.Code()
    requires registry.connections.value[c.key].promise.settled == None
    modifies registry.Footprint()
    ensures before == PendingState(registry.connections.value[c.key].promise)
    ensures after == SettledView(c)
  {
    var chunks := GetStreamChunks(registry);
    var reader := new Reader(chunks.value[c.key]);
    before := reader.Read();
    var threw := RunScript(registry, c);
    reader.OnSettled();
    after := reader.Read();
    DeliveryGivesSettledView(c, reader.chunk.promise);
  }

  /**
   * Once the stream bootstrap has created the connections for the worker's
   * keys, the settlement script of any of those keys finds its connection.
   */
  method BootstrapThenScript<V>(keys: seq<string>, c: ClientCall<V>) returns (threw: bool, view: ChunkState<V>)
    requires c.key in keys
    ensures !threw && view == SettledView(c)
  {
    var registry := new Registry<V>();
    var created := registry.CreateConnections(keys);
    threw := RunScript(registry, c);
    var chunks := GetStreamChunks(registry);
    var reader := new Reader(chunks.value[c.key]);
    view := reader.Read();
  }

  /** The renderer's chunks read one by one, none ending with the sentinel: all collected into the shell, nothing written. */
  method ReadBeforeSentinel<V>(session: Session<V>, texts: seq<string>)
    requires session.Valid() && !session.closed && !session.shellReady
    requires forall j :: 0 <= j < |texts| ==> !EndsWith(texts[j], StreamEnding)
    modifies session
    ensures session.Valid() && !session.closed && !session.shellReady
    ensures session.shell == old(session.shell) + Concat(texts)
    ensures session.output == old(session.output) && session.settlements == old(session.settlements)
  {
    var i := 0;
    while i < |texts|
      invariant 0 <= i <= |texts|
      invariant session.Valid() && !session.closed && !session.shellReady
      invariant session.shell == old(session.shell) + Concat(texts[..i])
      invariant session.output == old(session.output) && session.settlements == old(session.settlements)
    {
      var again := session.OnRead(Chunk(texts[i]));
      ConcatLast(texts[..i + 1]);
      assert texts[..i + 1][..i] == texts[..i];
      i := i + 1;
    }
    assert texts[..i] == texts;
  }

  /**
   * The race the stream design leaves open: a key that settles before the
   * shell is complete (after any number of renderer chunks, none of them
   * ending with the sentinel) has its script written first, ahead of the
   * document that carries the bootstrap, and a page that runs it with no
   * connection table throws, so the settlement is lost.
   */
  method EarlySettlementThrows<V>(template: string, keys: seq<string>, scriptPlaceholder: string,
                                  streamRuntime: string, ser: Serializer<V>, ev: Evaluator<V>,
                                  texts: seq<string>, key: string, s: Settlement<V>)
    returns (first: Write, threw: bool)
    requires key in keys
    requires forall j :: 0 <= j < |texts| ==> !EndsWith(texts[j], StreamEnding)
    ensures first == SettlementWrite(key, SettlementScript(key, s, ser))
    ensures threw
  {
    var session := new Session(template, keys, scriptPlaceholder, streamRuntime, ser);
    ReadBeforeSentinel(session, texts);
    session.OnSettled(key, s);
    first := session.output[0];
    var registry := new Registry<V>();
    threw := RunScriptText(registry, first.text, ev);
  }

}
