/** What one readiness probe can show of a started process, and what it means. */
module Probes {
  import opened Text

  /** One readiness check. The two "not usable yet" answers of the compositor's socket are one here. */
  datatype Status = Ready | ProcessExited | ProtocolError | NotReady

  /** What a status file may say. */
  datatype Wording = Wording(ready: string, failed: string, error: string)

  const WORDING := Wording("STATUS=READY", "STATUS=FAILED", "STATUS=ERROR")

  predicate SaysReady(w: Wording, line: string) {
    Trim(line) == w.ready
  }

  predicate SaysFailed(w: Wording, line: string) {
    StartsWith(Trim(line), w.failed) || StartsWith(Trim(line), w.error)
  }

  predicate SomeReady(w: Wording, lines: seq<string>) {
    exists i :: 0 <= i < |lines| && SaysReady(w, lines[i])
  }

  predicate SomeFailed(w: Wording, lines: seq<string>) {
    exists i :: 0 <= i < |lines| && SaysFailed(w, lines[i])
  }

  lemma OneMoreLine(w: Wording, lines: seq<string>, k: nat)
    requires k < |lines|
    ensures SomeReady(w, lines[..k + 1]) <==> SomeReady(w, lines[..k]) || SaysReady(w, lines[k])
    ensures SomeFailed(w, lines[..k + 1]) <==> SomeFailed(w, lines[..k]) || SaysFailed(w, lines[k])
  {
    var now, before := lines[..k + 1], lines[..k];
    assert now == before + [lines[k]];
    assert now[k] == lines[k] && forall i :: 0 <= i < k ==> now[i] == before[i];
  }

  /** Reads a status file: one failure line, wherever it stands, outweighs every ready line. */
  method ClassifyFile(content: string, w: Wording) returns (status: Status)
    requires w.ready != "" && w.failed != "" && w.error != ""
    requires !StartsWith(w.ready, w.failed) && !StartsWith(w.ready, w.error)
    ensures status == ProtocolError <==> SomeFailed(w, Lines(content))
    ensures status == Ready <==> SomeReady(w, Lines(content)) && !SomeFailed(w, Lines(content))
    ensures status == FileStatus(w, content)
  {
    var hasReady, hasFailure, pos := false, false, 0;
    ghost var all, k := Lines(content), 0;
    assert content[0..] == content;
    var ok, line, next := GetLine(content, pos);
    while ok
      invariant pos <= |content| && k <= |all|
      invariant ok ==> pos < next <= |content| && Lines(content[pos..]) == [line] + Lines(content[next..])
      invariant !ok ==> Lines(content[pos..]) == []
      invariant Lines(content[pos..]) == all[k..]
      invariant hasReady <==> SomeReady(w, all[..k])
      invariant hasFailure <==> SomeFailed(w, all[..k])
      decreases |content| - pos, ok
    {
      assert line == all[k] && Lines(content[next..]) == all[k..][1..] == all[k + 1..];
      hasReady, hasFailure := ClassifyLine(line, w, hasReady, hasFailure);
      OneMoreLine(w, all, k);
      pos, k := next, k + 1;
      ok, line, next := GetLine(content, pos);
    }
    assert all[..k] == all;
    status := if hasFailure then ProtocolError else if hasReady then Ready else NotReady;
  }

  /** The effect of one line on the two flags. */
  method ClassifyLine(line: string, w: Wording, ready: bool, failure: bool) returns (hasReady: bool, hasFailure: bool)
    requires w.ready != "" && w.failed != "" && w.error != ""
    requires !StartsWith(w.ready, w.failed) && !StartsWith(w.ready, w.error)
    ensures hasReady <==> ready || SaysReady(w, line)
    ensures hasFailure <==> failure || SaysFailed(w, line)
  {
    hasReady, hasFailure := ready, failure;
    var trimmed := Trim(line);
    if trimmed == "" {
      return;
    }
    if trimmed == w.ready {
      hasReady := true;
    } else if StartsWith(trimmed, w.failed) || StartsWith(trimmed, w.error) {
      hasFailure := true;
    }
  }

  /** What the operating system showed: the process is gone; no file or socket yet; the text of the
      status file; or whether the socket takes a connection. */
  datatype Look = Gone | Missing | Contents(text: string) | Connection(accepted: bool)

  /** A look and its moment. */
  datatype Seen = Seen(look: Look, at: nat)

  function FileStatus(w: Wording, content: string): Status {
    if SomeFailed(w, Lines(content)) then ProtocolError else if SomeReady(w, Lines(content)) then Ready else NotReady
  }

  function StatusOf(look: Look): Status {
    match look
    case Gone => ProcessExited
    case Missing => NotReady
    case Contents(text) => FileStatus(WORDING, text)
    case Connection(accepted) => if accepted then Ready else NotReady
  }

  /** No further look can help. */
  predicate IsLoss(status: Status) {
    status == ProcessExited || status == ProtocolError
  }

  /** What the lines of a status file say. */
  lemma FileStatusByLines(text: string)
    ensures var lines := Lines(text);
            var failed := exists i :: 0 <= i < |lines| &&
                                      ("STATUS=FAILED" <= Trim(lines[i]) || "STATUS=ERROR" <= Trim(lines[i]));
            && (FileStatus(WORDING, text) == ProtocolError <==> failed)
            && (FileStatus(WORDING, text) == Ready <==>
                  !failed && exists i :: 0 <= i < |lines| && Trim(lines[i]) == "STATUS=READY")
  {
    var lines := Lines(text);
    forall i | 0 <= i < |lines|
      ensures SaysFailed(WORDING, lines[i]) <==>
                "STATUS=FAILED" <= Trim(lines[i]) || "STATUS=ERROR" <= Trim(lines[i])
      ensures SaysReady(WORDING, lines[i]) <==> Trim(lines[i]) == "STATUS=READY"
    {
    }
  }

  lemma WordingIsClear()
    ensures WORDING.ready != "" && WORDING.failed != "" && WORDING.error != ""
    ensures !StartsWith(WORDING.ready, WORDING.failed) && !StartsWith(WORDING.ready, WORDING.error)
  {
    assert WORDING.ready[7] == 'R' && WORDING.failed[7] == 'F' && WORDING.error[7] == 'E';
  }
}
