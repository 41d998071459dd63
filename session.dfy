/**
 * The stream-mode half of the generated service-worker entry: the `onRead`
 * loop that buffers the renderer's chunks until the shell is complete,
 * writes the merged document once and then forwards every chunk, and the
 * settlement callbacks that write one script per worker key to the same
 * writer.
 *
 * Renderer chunks are modelled as decoded strings (decoding and encoding
 * are the identity); each write is tagged with the code that made it, so
 * that the output can be split back into the reader's writes and the
 * settlement writes, which reach the writer in whatever order the events
 * happen.
 */
module StreamSession {
  import opened Wrappers
  import opened Text
  import opened Js
  import opened Render

  /** One `reader.read()` result: the end of the stream, or one decoded chunk. */
  datatype ReadResult = Done | Chunk(text: string)

  /**
   * How one `reader.read()` promise settles: with a result, handed to
   * `onRead`, or rejected because the rendered stream errored. No rejection
   * handler is attached, so a rejection calls nothing.
   */
  datatype ReadOutcome = ReadOk(result: ReadResult) | ReadError

  /** One `writer.write(...)`. */
  datatype Write =
    | ShellDocument(html: string)                // the merged document, written when the shell completes
    | Forwarded(text: string)                    // a renderer chunk after the shell, passed on as is
    | SettlementWrite(key: string, text: string) // the script for one worker key

  /** Position of the first chunk whose text ends with the sentinel, if any. */
  function SentinelIndex(chunks: seq<string>): (r: Option<nat>)
    ensures r.Some? ==> r.value < |chunks| && EndsWith(chunks[r.value], StreamEnding)
    ensures r.Some? ==> forall j :: 0 <= j < r.value ==> !EndsWith(chunks[j], StreamEnding)
    ensures r.None? <==> forall j :: 0 <= j < |chunks| ==> !EndsWith(chunks[j], StreamEnding)
  {
    if |chunks| == 0 then None
    else match SentinelIndex(chunks[..|chunks| - 1])
      case Some(i) => Some(i)
      case None => if EndsWith(chunks[|chunks| - 1], StreamEnding) then Some(|chunks| - 1) else None
  }

  /** The reader side's two variables and what it has written so far. */
  datatype ReaderState = ReaderState(shellReady: bool, shell: string, writes: seq<Write>)

  /**
   * One `onRead` call on a decoded chunk `t`: collect it into the shell;
   * or, if it ends with the sentinel, complete the shell without the
   * sentinel and write the merged document; or, once the shell is out,
   * forward it.
   */
  function ReadChunk(template: string, scriptPlaceholder: string, bootstrap: string, st: ReaderState, t: string): ReaderState
  {
    if st.shellReady then st.(writes := st.writes + [Forwarded(t)])
    else if EndsWith(t, StreamEnding) then
      var shell := st.shell + DropSuffix(t, StreamEnding);
      ReaderState(true, shell, st.writes + [ShellDocument(MergeDocument(template, shell, scriptPlaceholder, bootstrap))])
    else st.(shell := st.shell + t)
  }

  /** The reader side after `onRead` has handled `chunks`, starting with no shell and no writes. */
  function ReadAll(template: string, scriptPlaceholder: string, bootstrap: string, chunks: seq<string>): ReaderState
  {
    if |chunks| == 0 then ReaderState(false, "", [])
    else ReadChunk(template, scriptPlaceholder, bootstrap,
                   ReadAll(template, scriptPlaceholder, bootstrap, chunks[..|chunks| - 1]), chunks[|chunks| - 1])
  }

  lemma ReadAllStep(template: string, scriptPlaceholder: string, bootstrap: string, chunks: seq<string>, t: string)
    ensures ReadAll(template, scriptPlaceholder, bootstrap, chunks + [t])
         == ReadChunk(template, scriptPlaceholder, bootstrap, ReadAll(template, scriptPlaceholder, bootstrap, chunks), t)
  {
    assert (chunks + [t])[..|chunks|] == chunks;
  }

  /** The writes made by the reader side, in order. */
  function RenderPart(out: seq<Write>): (r: seq<Write>)
    ensures forall w :: w in r ==> !w.SettlementWrite?
  {
    if |out| == 0 then []
    else RenderPart(out[..|out| - 1]) + (if out[|out| - 1].SettlementWrite? then [] else [out[|out| - 1]])
  }

  /** The settlement writes, in order. */
  function ScriptPart(out: seq<Write>): (r: seq<Write>)
    ensures forall w :: w in r ==> w.SettlementWrite?
  {
    if |out| == 0 then []
    else ScriptPart(out[..|out| - 1]) + (if out[|out| - 1].SettlementWrite? then [out[|out| - 1]] else [])
  }

  /** The output is exactly the two parts merged: no write is lost or duplicated. */
  lemma {:induction false} PartsPartition(out: seq<Write>)
    ensures multiset(RenderPart(out)) + multiset(ScriptPart(out)) == multiset(out)
  {
    if |out| > 0 {
      PartsPartition(out[..|out| - 1]);
      PartsStep(out);
      MultisetLast(out);
    }
  }

  /** The last write is in exactly one of the two parts. */
  lemma PartsStep(out: seq<Write>)
    requires |out| > 0
    ensures multiset(RenderPart(out)) + multiset(ScriptPart(out))
         == multiset(RenderPart(out[..|out| - 1])) + multiset(ScriptPart(out[..|out| - 1])) + multiset{out[|out| - 1]}
  {
    var init, last := out[..|out| - 1], out[|out| - 1];
    if last.SettlementWrite? {
      MultisetAddLast(ScriptPart(init), last);
    } else {
      MultisetAddLast(RenderPart(init), last);
    }
  }

  lemma MultisetAddLast<T>(s: seq<T>, x: T)
    ensures multiset(s + [x]) == multiset(s) + multiset{x}
  {
  }

  lemma MultisetLast<T>(s: seq<T>)
    requires |s| > 0
    ensures multiset(s) == multiset(s[..|s| - 1]) + multiset{s[|s| - 1]}
  {
    assert s == s[..|s| - 1] + [s[|s| - 1]];
  }

  /** Appending one write adds it to its own part and leaves the other part alone. */
  lemma AppendWrite(out: seq<Write>, w: Write)
    ensures !w.SettlementWrite? ==> RenderPart(out + [w]) == RenderPart(out) + [w] && ScriptPart(out + [w]) == ScriptPart(out)
    ensures w.SettlementWrite? ==> RenderPart(out + [w]) == RenderPart(out) && ScriptPart(out + [w]) == ScriptPart(out) + [w]
  {
    assert (out + [w])[..|out|] == out;
  }

  lemma ConcatLast(chunks: seq<string>)
    requires |chunks| > 0
    ensures Concat(chunks) == Concat(chunks[..|chunks| - 1]) + chunks[|chunks| - 1]
  {
    var n := |chunks| - 1;
    assert chunks == chunks[..n] + [chunks[n]];
    ConcatAppend(chunks[..n], chunks[n]);
  }

  /** Until a chunk ends with the sentinel nothing is written, and the shell is all the text read. */
  lemma {:induction false} ReadAllBeforeSentinel(template: string, scriptPlaceholder: string, bootstrap: string, chunks: seq<string>)
    requires SentinelIndex(chunks).None?
    ensures ReadAll(template, scriptPlaceholder, bootstrap, chunks) == ReaderState(false, Concat(chunks), [])
  {
    if |chunks| > 0 {
      ReadAllBeforeSentinel(template, scriptPlaceholder, bootstrap, chunks[..|chunks| - 1]);
      ConcatLast(chunks);
    }
  }

  /**
   * From the first chunk that ends with the sentinel on, the shell is
   * complete and stays as it was: the text read up to that chunk, minus the
   * sentinel.
   */
  lemma {:induction false} ShellAfterSentinel(template: string, scriptPlaceholder: string, bootstrap: string, chunks: seq<string>)
    requires SentinelIndex(chunks).Some?
    ensures ReadAll(template, scriptPlaceholder, bootstrap, chunks).shellReady
    ensures ReadAll(template, scriptPlaceholder, bootstrap, chunks).shell + StreamEnding
         == Concat(chunks[..SentinelIndex(chunks).value + 1])
  {
    var n := |chunks| - 1;
    var prev := chunks[..n];
    if SentinelIndex(prev).Some? {
      ShellAfterSentinel(template, scriptPlaceholder, bootstrap, prev);
      var i := SentinelIndex(prev).value;
      assert prev[..i + 1] == chunks[..i + 1];
    } else {
      ReadAllBeforeSentinel(template, scriptPlaceholder, bootstrap, prev);
      ConcatLast(chunks);
      var cut := DropSuffix(chunks[n], StreamEnding);
      assert Concat(prev) + cut + StreamEnding == Concat(prev) + (cut + StreamEnding);
      assert chunks[..n + 1] == chunks;
    }
  }

  /**
   * The reader's writes once the shell was completed by chunk `i`: the
   * merged document built from the shell, then every chunk after `i`
   * verbatim and in order.
   */
  predicate WritesFrom(template: string, scriptPlaceholder: string, bootstrap: string,
                       st: ReaderState, chunks: seq<string>, i: nat) {
    && i < |chunks| && |st.writes| == |chunks| - i
    && st.writes[0] == ShellDocument(MergeDocument(template, st.shell, scriptPlaceholder, bootstrap))
    && forall k :: 0 < k < |st.writes| ==> st.writes[k] == Forwarded(chunks[i + k])
  }

  /**
   * From the first chunk that ends with the sentinel on, the merged
   * document built from the shell is the first write, and every later chunk
   * follows verbatim and in order, including chunks that also end with the
   * sentinel.
   */
  lemma {:induction false} WritesAfterSentinel(template: string, scriptPlaceholder: string, bootstrap: string, chunks: seq<string>)
    requires SentinelIndex(chunks).Some?
    ensures WritesFrom(template, scriptPlaceholder, bootstrap, ReadAll(template, scriptPlaceholder, bootstrap, chunks),
                       chunks, SentinelIndex(chunks).value)
  {
    var prev := chunks[..|chunks| - 1];
    if SentinelIndex(prev).Some? {
      WritesAfterSentinel(template, scriptPlaceholder, bootstrap, prev);
      ShellAfterSentinel(template, scriptPlaceholder, bootstrap, prev);
      ForwardedAfterSentinel(template, scriptPlaceholder, bootstrap, chunks);
    } else {
      ReadAllBeforeSentinel(template, scriptPlaceholder, bootstrap, prev);
    }
  }

  /** The inductive step of the lemma above, for a chunk read after the sentinel chunk. */
  lemma ForwardedAfterSentinel(template: string, scriptPlaceholder: string, bootstrap: string, chunks: seq<string>)
    requires |chunks| > 0 && SentinelIndex(chunks[..|chunks| - 1]).Some?
    requires ReadAll(template, scriptPlaceholder, bootstrap, chunks[..|chunks| - 1]).shellReady
    requires WritesFrom(template, scriptPlaceholder, bootstrap, ReadAll(template, scriptPlaceholder, bootstrap, chunks[..|chunks| - 1]),
                        chunks[..|chunks| - 1], SentinelIndex(chunks[..|chunks| - 1]).value)
    ensures WritesFrom(template, scriptPlaceholder, bootstrap, ReadAll(template, scriptPlaceholder, bootstrap, chunks),
                       chunks, SentinelIndex(chunks).value)
  {
    var n := |chunks| - 1;
    var i, before := SentinelIndex(chunks[..n]).value, ReadAll(template, scriptPlaceholder, bootstrap, chunks[..n]);
    assert SentinelIndex(chunks) == Some(i);
    assert ReadAll(template, scriptPlaceholder, bootstrap, chunks) == before.(writes := before.writes + [Forwarded(chunks[n])]);
    ExtendForwarded(template, scriptPlaceholder, bootstrap, before, chunks, i);
  }

  /** Forwarding the next chunk keeps the writes lined up with the chunks after the sentinel chunk. */
  lemma ExtendForwarded(template: string, scriptPlaceholder: string, bootstrap: string,
                        before: ReaderState, chunks: seq<string>, i: nat)
    requires |chunks| > 0 && WritesFrom(template, scriptPlaceholder, bootstrap, before, chunks[..|chunks| - 1], i)
    ensures WritesFrom(template, scriptPlaceholder, bootstrap,
                       before.(writes := before.writes + [Forwarded(chunks[|chunks| - 1])]), chunks, i)
  {
    var ws, ws' := before.writes, before.writes + [Forwarded(chunks[|chunks| - 1])];
    forall k | 0 < k < |ws'| ensures ws'[k] == Forwarded(chunks[i + k]) {
      if k < |ws| {
        assert ws[k] == Forwarded(chunks[..|chunks| - 1][i + k]);
      }
    }
  }

  /** The shell is complete exactly when some chunk read ended with the sentinel. */
  lemma ReadyIffSentinel(template: string, scriptPlaceholder: string, bootstrap: string, chunks: seq<string>)
    ensures ReadAll(template, scriptPlaceholder, bootstrap, chunks).shellReady
        <==> exists j :: 0 <= j < |chunks| && EndsWith(chunks[j], StreamEnding)
  {
    if SentinelIndex(chunks).Some? {
      ShellAfterSentinel(template, scriptPlaceholder, bootstrap, chunks);
    } else {
      ReadAllBeforeSentinel(template, scriptPlaceholder, bootstrap, chunks);
    }
  }

  /** The merged document is written at most once, and only as the first write. */
  lemma DocumentAtMostOnce(template: string, scriptPlaceholder: string, bootstrap: string, chunks: seq<string>)
    ensures var ws := ReadAll(template, scriptPlaceholder, bootstrap, chunks).writes;
      forall k :: 0 <= k < |ws| ==> (ws[k].ShellDocument? <==> k == 0)
  {
    if SentinelIndex(chunks).Some? {
      WritesAfterSentinel(template, scriptPlaceholder, bootstrap, chunks);
    } else {
      ReadAllBeforeSentinel(template, scriptPlaceholder, bootstrap, chunks);
    }
  }

  /**
   * The sentinel is looked for in each chunk on its own: when the renderer
   * splits it across two chunks, the shell never completes and nothing is
   * written, although the text read so far ends with the sentinel.
   */
  lemma SplitSentinelNeverSeen(template: string, scriptPlaceholder: string, bootstrap: string, markup: string)
    ensures EndsWith(Concat([markup + "__SWSR_STREAM_", "ENDING__"]), StreamEnding)
    ensures ReadAll(template, scriptPlaceholder, bootstrap, [markup + "__SWSR_STREAM_", "ENDING__"])
         == ReaderState(false, markup + StreamEnding, [])
  {
    var chunks := [markup + "__SWSR_STREAM_", "ENDING__"];
    assert Concat(chunks) == markup + StreamEnding by {
      assert chunks[1..] == ["ENDING__"] && Concat(chunks[1..]) == "ENDING__";
      assert "__SWSR_STREAM_" + "ENDING__" == StreamEnding;
      assert markup + "__SWSR_STREAM_" + "ENDING__" == markup + ("__SWSR_STREAM_" + "ENDING__");
    }
    assert EndsWith(markup + StreamEnding, StreamEnding) by {
      assert (markup + StreamEnding)[|markup|..] == StreamEnding;
    }
    assert SentinelIndex(chunks).None? by {
      FirstHalfNoSentinel(markup);
    }
    ReadAllBeforeSentinel(template, scriptPlaceholder, bootstrap, chunks);
  }

  /** The first half of a split sentinel ends in "M_", the sentinel in "__". */
  lemma FirstHalfNoSentinel(markup: string)
    ensures !EndsWith(markup + "__SWSR_STREAM_", StreamEnding)
  {
    var h := markup + "__SWSR_STREAM_";
    if |StreamEnding| <= |h| {
      assert h[|h| - 2] == 'M';
      assert h[|h| - |StreamEnding|..][|StreamEnding| - 2] == h[|h| - 2];
    }
  }

  /**
   * The settlement side: settled keys are worker keys, each written key was
   * settled and written once, every settled key was written while the
   * writer is open, and the writes are those keys' scripts in order.
   */
  ghost predicate ScriptsAgree<V>(keys: seq<string>, ser: Serializer<V>, settlements: map<string, Settlement<V>>,
                                  scripted: seq<string>, closed: bool, writes: seq<Write>)
  {
    (forall k :: k in settlements ==> k in keys) &&
    (forall k :: k in scripted ==> k in settlements) &&
    (forall i, j :: 0 <= i < j < |scripted| ==> scripted[i] != scripted[j]) &&
    (!closed ==> forall k :: k in settlements ==> k in scripted) &&
    |writes| == |scripted| &&
    (forall i :: 0 <= i < |scripted| ==>
      writes[i] == SettlementWrite(scripted[i], SettlementScript(scripted[i], settlements[scripted[i]], ser)))
  }

  /** Settling a new key keeps the settlement side in agreement, whether or not its script is written. */
  lemma ScriptsStep<V>(keys: seq<string>, ser: Serializer<V>, settlements: map<string, Settlement<V>>,
                       scripted: seq<string>, closed: bool, writes: seq<Write>, key: string, s: Settlement<V>)
    requires ScriptsAgree(keys, ser, settlements, scripted, closed, writes)
    requires key in keys && key !in settlements
    ensures !closed ==>
      ScriptsAgree(keys, ser, settlements[key := s], scripted + [key], closed,
                   writes + [SettlementWrite(key, SettlementScript(key, s, ser))])
    ensures closed ==> ScriptsAgree(keys, ser, settlements[key := s], scripted, closed, writes)
  {
  }

  /**
   * A session's state agrees with what happened: the reader side's
   * variables and writes are those of `onRead` over the chunks read, and
   * the settlement writes are those of the settled keys.
   */
  ghost predicate Agrees<V>(template: string, scriptPlaceholder: string, bootstrap: string, keys: seq<string>,
                            ser: Serializer<V>, shellReady: bool, shell: string, closed: bool, output: seq<Write>,
                            chunks: seq<string>, settlements: map<string, Settlement<V>>, scripted: seq<string>)
  {
    && ReaderState(shellReady, shell, RenderPart(output)) == ReadAll(template, scriptPlaceholder, bootstrap, chunks)
    && ScriptsAgree(keys, ser, settlements, scripted, closed, ScriptPart(output))
  }

  /** `done` closes the writer: a closed session still agrees. */
  lemma CloseStep<V>(template: string, scriptPlaceholder: string, bootstrap: string, keys: seq<string>,
                    ser: Serializer<V>, shellReady: bool, shell: string, closed: bool, output: seq<Write>,
                    chunks: seq<string>, settlements: map<string, Settlement<V>>, scripted: seq<string>)
    requires Agrees(template, scriptPlaceholder, bootstrap, keys, ser, shellReady, shell, closed, output, chunks, settlements, scripted)
    ensures Agrees(template, scriptPlaceholder, bootstrap, keys, ser, shellReady, shell, true, output, chunks, settlements, scripted)
  {
  }

  /** After the shell, a chunk is forwarded. */
  lemma ForwardStep<V>(template: string, scriptPlaceholder: string, bootstrap: string, keys: seq<string>,
                    ser: Serializer<V>, shellReady: bool, shell: string, closed: bool, output: seq<Write>,
                    chunks: seq<string>, settlements: map<string, Settlement<V>>, scripted: seq<string>, t: string)
    requires Agrees(template, scriptPlaceholder, bootstrap, keys, ser, shellReady, shell, closed, output, chunks, settlements, scripted)
    requires shellReady
    ensures Agrees(template, scriptPlaceholder, bootstrap, keys, ser, true, shell, closed, output + [Forwarded(t)],
                   chunks + [t], settlements, scripted)
  {
    ReadAllStep(template, scriptPlaceholder, bootstrap, chunks, t);
    AppendWrite(output, Forwarded(t));
  }

  /** A chunk ending with the sentinel completes the shell and writes the merged document. */
  lemma CompleteStep<V>(template: string, scriptPlaceholder: string, bootstrap: string, keys: seq<string>,
                    ser: Serializer<V>, shellReady: bool, shell: string, closed: bool, output: seq<Write>,
                    chunks: seq<string>, settlements: map<string, Settlement<V>>, scripted: seq<string>, t: string)
    requires Agrees(template, scriptPlaceholder, bootstrap, keys, ser, shellReady, shell, closed, output, chunks, settlements, scripted)
    requires !shellReady && EndsWith(t, StreamEnding)
    ensures Agrees(template, scriptPlaceholder, bootstrap, keys, ser, true, shell + DropSuffix(t, StreamEnding), closed,
                   output + [ShellDocument(MergeDocument(template, shell + DropSuffix(t, StreamEnding), scriptPlaceholder, bootstrap))],
                   chunks + [t], settlements, scripted)
  {
    ReadAllStep(template, scriptPlaceholder, bootstrap, chunks, t);
    var shell' := shell + DropSuffix(t, StreamEnding);
    AppendWrite(output, ShellDocument(MergeDocument(template, shell', scriptPlaceholder, bootstrap)));
  }

  /** Before the shell, any other chunk is collected. */
  lemma CollectStep<V>(template: string, scriptPlaceholder: string, bootstrap: string, keys: seq<string>,
                    ser: Serializer<V>, shellReady: bool, shell: string, closed: bool, output: seq<Write>,
                    chunks: seq<string>, settlements: map<string, Settlement<V>>, scripted: seq<string>, t: string)
    requires Agrees(template, scriptPlaceholder, bootstrap, keys, ser, shellReady, shell, closed, output, chunks, settlements, scripted)
    requires !shellReady && !EndsWith(t, StreamEnding)
    ensures Agrees(template, scriptPlaceholder, bootstrap, keys, ser, false, shell + t, closed, output,
                   chunks + [t], settlements, scripted)
  {
    ReadAllStep(template, scriptPlaceholder, bootstrap, chunks, t);
  }

  /** Settling a new key while the writer is open writes its script and keeps the session in agreement. */
  lemma SettleOpenStep<V>(template: string, scriptPlaceholder: string, bootstrap: string, keys: seq<string>,
                    ser: Serializer<V>, shellReady: bool, shell: string, closed: bool, output: seq<Write>,
                    chunks: seq<string>, settlements: map<string, Settlement<V>>, scripted: seq<string>, key: string, s: Settlement<V>)
    requires Agrees(template, scriptPlaceholder, bootstrap, keys, ser, shellReady, shell, closed, output, chunks, settlements, scripted)
    requires key in keys && key !in settlements && !closed
    ensures Agrees(template, scriptPlaceholder, bootstrap, keys, ser, shellReady, shell, closed,
                   output + [SettlementWrite(key, SettlementScript(key, s, ser))], chunks, settlements[key := s], scripted + [key])
  {
    ScriptsStep(keys, ser, settlements, scripted, closed, ScriptPart(output), key, s);
    AppendWrite(output, SettlementWrite(key, SettlementScript(key, s, ser)));
  }

  /** Settling a new key after the writer closed writes nothing and keeps the session in agreement. */
  lemma SettleClosedStep<V>(template: string, scriptPlaceholder: string, bootstrap: string, keys: seq<string>,
                    ser: Serializer<V>, shellReady: bool, shell: string, closed: bool, output: seq<Write>,
                    chunks: seq<string>, settlements: map<string, Settlement<V>>, scripted: seq<string>, key: string, s: Settlement<V>)
    requires Agrees(template, scriptPlaceholder, bootstrap, keys, ser, shellReady, shell, closed, output, chunks, settlements, scripted)
    requires key in keys && key !in settlements && closed
    ensures Agrees(template, scriptPlaceholder, bootstrap, keys, ser, shellReady, shell, closed, output, chunks,
                   settlements[key := s], scripted)
  {
    ScriptsStep(keys, ser, settlements, scripted, closed, ScriptPart(output), key, s);
  }

  /** The reader side and the settlement callbacks of one stream-mode render, sharing one writer. */
  class Session<V> {
    const template: string
    const scriptPlaceholder: string
    const keys: seq<string>
    const ser: Serializer<V>
    /** The stream bootstrap for these keys, substituted for the script placeholder. */
    const bootstrap: string

    var shellReady: bool
    var shell: string
    /** `writer.close()` has been called; later writes fail and put nothing out. */
    var closed: bool
    /** Everything the writer has accepted, in order. */
    var output: seq<Write>

    /** The chunk texts read so far. */
    ghost var chunks: seq<string>
    /** How each worker key's promise settled, for the keys that have settled. */
    ghost var settlements: map<string, Settlement<V>>
    /** The keys whose settlement script was written, in order. */
    ghost var scripted: seq<string>

    ghost predicate Valid()
      reads this
    {
      Agrees(template, scriptPlaceholder, bootstrap, keys, ser, shellReady, shell, closed, output, chunks, settlements, scripted)
    }

    /**
     * `renderToStreamingHTML` right after the writer is created and the
     * settlement handlers are attached: nothing read, nothing written. A key
     * that settles before the shell promise fulfils is an `OnSettled` call
     * made before the first `OnRead`.
     */
    constructor (template: string, keys: seq<string>, scriptPlaceholder: string, streamRuntime: string, ser: Serializer<V>)
      ensures Valid()
      ensures this.template == template && this.keys == keys
      ensures this.scriptPlaceholder == scriptPlaceholder && this.ser == ser
      ensures bootstrap == StreamBootstrap(streamRuntime, ser.names(keys))
      ensures !shellReady && shell == "" && !closed && output == []
      ensures chunks == [] && settlements == map[] && scripted == []
    {
      this.template := template;
      this.keys := keys;
      this.scriptPlaceholder := scriptPlaceholder;
      this.ser := ser;
      bootstrap := StreamBootstrap(streamRuntime, ser.names(keys));
      shellReady := false;
      shell := "";
      closed := false;
      output := [];
      chunks := [];
      settlements := map[];
      scripted := [];
    }

    /**
     * `onRead`: on `done` close the writer and stop; otherwise collect the
     * chunk into the shell, or complete the shell and write the merged
     * document, or forward the chunk once the shell is out. `again` tells
     * whether another read is issued.
     */
    method OnRead(r: ReadResult) returns (again: bool)
      requires Valid() && !closed
      modifies this
      ensures Valid()
      ensures again <==> r.Chunk?
      ensures closed <==> r == Done
      ensures r == Done ==> output == old(output) && chunks == old(chunks)
      ensures r.Chunk? ==> chunks == old(chunks) + [r.text]
      ensures r.Chunk? && old(shellReady) ==> output == old(output) + [Forwarded(r.text)] && shell == old(shell)
      ensures r.Chunk? && !old(shellReady) && EndsWith(r.text, StreamEnding) ==>
        shellReady && shell == old(shell) + DropSuffix(r.text, StreamEnding) &&
        output == old(output) + [ShellDocument(MergeDocument(template, shell, scriptPlaceholder, bootstrap))]
      ensures r.Chunk? && !old(shellReady) && !EndsWith(r.text, StreamEnding) ==>
        !shellReady && shell == old(shell) + r.text && output == old(output)
      ensures settlements == old(settlements) && scripted == old(scripted)
    {
      match r
      case Done =>
        CloseStep(template, scriptPlaceholder, bootstrap, keys, ser, shellReady, shell, closed, output,
                  chunks, settlements, scripted);
        closed := true;
        again := false;
      case Chunk(content) =>
        if !shellReady {
          if EndsWith(content, StreamEnding) {
            CompleteShell(content);
          } else {
            CollectChunk(content);
          }
        } else {
          ForwardChunk(content);
        }
        again := true;
    }

    /** Before the shell is out, a chunk ending with the sentinel completes it and writes the merged document. */
    method CompleteShell(content: string)
      requires Valid() && !closed && !shellReady && EndsWith(content, StreamEnding)
      modifies this
      ensures Valid() && !closed && shellReady
      ensures shell == old(shell) + DropSuffix(content, StreamEnding)
      ensures output == old(output) + [ShellDocument(MergeDocument(template, shell, scriptPlaceholder, bootstrap))]
      ensures chunks == old(chunks) + [content]
      ensures settlements == old(settlements) && scripted == old(scripted)
    {
      var shell' := shell + DropSuffix(content, StreamEnding);
      var output' := output + [ShellDocument(MergeDocument(template, shell', scriptPlaceholder, bootstrap))];
      CompleteStep(template, scriptPlaceholder, bootstrap, keys, ser, shellReady, shell, closed, output,
                   chunks, settlements, scripted, content);
      shell, shellReady, output, chunks := shell', true, output', chunks + [content];
    }

    /** Before the shell is out, any other chunk is collected into it. */
    method CollectChunk(content: string)
      requires Valid() && !closed && !shellReady && !EndsWith(content, StreamEnding)
      modifies this
      ensures Valid() && !closed && !shellReady
      ensures shell == old(shell) + content && output == old(output)
      ensures chunks == old(chunks) + [content]
      ensures settlements == old(settlements) && scripted == old(scripted)
    {
      CollectStep(template, scriptPlaceholder, bootstrap, keys, ser, shellReady, shell, closed, output,
                  chunks, settlements, scripted, content);
      shell, chunks := shell + content, chunks + [content];
    }

    /** Once the shell is out, a chunk is forwarded as it is. */
    method ForwardChunk(content: string)
      requires Valid() && !closed && shellReady
      modifies this
      ensures Valid() && !closed && shellReady
      ensures shell == old(shell) && output == old(output) + [Forwarded(content)]
      ensures chunks == old(chunks) + [content]
      ensures settlements == old(settlements) && scripted == old(scripted)
    {
      ForwardStep(template, scriptPlaceholder, bootstrap, keys, ser, shellReady, shell, closed, output,
                  chunks, settlements, scripted, content);
      output, chunks := output + [Forwarded(content)], chunks + [content];
    }

    /**
     * The callback on the promise for `key`: write that key's resolve or
     * reject script, unless the writer is already closed.
     */
    method OnSettled(key: string, s: Settlement<V>)
      requires Valid() && key in keys && key !in settlements
      modifies this
      ensures Valid()
      ensures settlements == old(settlements)[key := s]
      ensures !closed ==> output == old(output) + [SettlementWrite(key, SettlementScript(key, s, ser))]
      ensures closed ==> output == old(output)
      ensures shellReady == old(shellReady) && shell == old(shell) && closed == old(closed) && chunks == old(chunks)
    {
      if !closed {
        SettleOpenStep(template, scriptPlaceholder, bootstrap, keys, ser, shellReady, shell, closed, output,
                       chunks, settlements, scripted, key, s);
        output := output + [SettlementWrite(key, SettlementScript(key, s, ser))];
        scripted := scripted + [key];
      } else {
        SettleClosedStep(template, scriptPlaceholder, bootstrap, keys, ser, shellReady, shell, closed, output,
                         chunks, settlements, scripted, key, s);
      }
      settlements := settlements[key := s];
    }
  }

  /** The texts of the chunks among the read outcomes, in order. */
  function ChunkTexts(events: seq<ReadOutcome>): seq<string>
  {
    if |events| == 0 then [] else ChunkTexts(events[..|events| - 1]) + ChunkText(events[|events| - 1])
  }

  lemma ChunkTextsStep(events: seq<ReadOutcome>, c: nat)
    requires c < |events|
    ensures ChunkTexts(events[..c + 1]) == ChunkTexts(events[..c]) + ChunkText(events[c])
  {
    assert events[..c + 1][..c] == events[..c];
  }

  /** The text an outcome contributes: its chunk, or nothing. */
  function ChunkText(e: ReadOutcome): seq<string>
  {
    if e.ReadOk? && e.result.Chunk? then [e.result.text] else []
  }

  /** The first `n` read outcomes all delivered a chunk. */
  predicate ChunksOnly(events: seq<ReadOutcome>, n: int)
  {
    forall j :: 0 <= j < n && j < |events| ==> events[j].ReadOk? && events[j].result.Chunk?
  }

  /**
   * After `n` read outcomes: every one before the last delivered a chunk,
   * the writer is closed exactly when the last was `done`, the chain is
   * stalled exactly when the last read was rejected, and `added` holds the
   * chunk texts delivered.
   */
  ghost predicate Pumped(events: seq<ReadOutcome>, n: nat, stalled: bool, closed: bool, added: seq<string>)
  {
    && n <= |events|
    && ChunksOnly(events, n - 1)
    && (closed <==> n > 0 && events[n - 1] == ReadOk(Done))
    && (stalled <==> n > 0 && events[n - 1] == ReadError)
    && added == ChunkTexts(events[..n])
  }

  lemma PumpedStep(events: seq<ReadOutcome>, n: nat, added: seq<string>, stalled: bool, closed: bool)
    requires Pumped(events, n, false, false, added) && n < |events|
    requires closed <==> events[n] == ReadOk(Done)
    requires stalled <==> events[n] == ReadError
    ensures Pumped(events, n + 1, stalled, closed, added + ChunkText(events[n]))
  {
    ChunkTextsStep(events, n);
  }

  lemma AppendAssoc<T>(a: seq<T>, b: seq<T>, c: seq<T>)
    ensures a + b + c == a + (b + c)
  {
  }

  /**
   * `reader.read().then(onRead)`, issued again by `onRead` after every
   * chunk: the outcomes are handled in order up to the first `done`, after
   * which no read is issued, or up to the first rejected read, which calls
   * nothing (no rejection handler is attached), so that nothing more is
   * written and the writer is never closed (`stalled`). Returns how many
   * outcomes were consumed.
   */
  method Pump<V>(session: Session<V>, events: seq<ReadOutcome>) returns (consumed: nat, stalled: bool)
    requires session.Valid() && !session.closed
    modifies session
    ensures session.Valid()
    ensures consumed <= |events|
    ensures ChunksOnly(events, consumed - 1)
    ensures session.closed <==> consumed > 0 && events[consumed - 1] == ReadOk(Done)
    ensures stalled <==> consumed > 0 && events[consumed - 1] == ReadError
    ensures !session.closed && !stalled ==> consumed == |events|
    ensures session.chunks == old(session.chunks) + ChunkTexts(events[..consumed])
    ensures session.settlements == old(session.settlements) && session.scripted == old(session.scripted)
  {
    ghost var chunks0, settlements0, scripted0 := session.chunks, session.settlements, session.scripted;
    ghost var added: seq<string> := [];
    consumed, stalled := 0, false;
    var again := true;
    assert events[..0] == [];
    while consumed < |events| && again
      invariant session.Valid()
      invariant Pumped(events, consumed, stalled, session.closed, added)
      invariant !again <==> session.closed || stalled
      invariant session.chunks == chunks0 + added
      invariant session.settlements == settlements0 && session.scripted == scripted0
      decreases |events| - consumed
    {
      var e := events[consumed];
      AppendAssoc(chunks0, added, ChunkText(e));
      if e.ReadError? {
        stalled, again := true, false;
      } else {
        again := session.OnRead(e.result);
      }
      PumpedStep(events, consumed, added, stalled, session.closed);
      added := added + ChunkText(e);
      consumed := consumed + 1;
    }
  }

  /**
   * While the writer is open, every settled key has exactly one script in
   * the output, carrying that key's settlement.
   */
  lemma OneScriptPerSettledKey<V>(session: Session<V>, k: string)
    requires session.Valid() && !session.closed && k in session.settlements
    ensures exists i ::
      (0 <= i < |ScriptPart(session.output)| &&
       ScriptPart(session.output)[i] == SettlementWrite(k, SettlementScript(k, session.settlements[k], session.ser)))
    ensures forall i, j :: 0 <= i < j < |ScriptPart(session.output)| ==>
      ScriptPart(session.output)[i].key != ScriptPart(session.output)[j].key
  {
    var i :| 0 <= i < |session.scripted| && session.scripted[i] == k;
    assert ScriptPart(session.output)[i] == SettlementWrite(k, SettlementScript(k, session.settlements[k], session.ser));
  }
}
