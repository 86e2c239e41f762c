/** OpenGL error reporting: the code-to-text table, the bounded drain of
    pending error codes done by raise_gl_error, and the check that the
    GL_CALL wrapper runs after every GL call.

    glGetError is modelled by a queue of pending codes: each call removes
    and returns the oldest one, or returns GL_NO_ERROR when none is left.
    Printing is modelled by the list of reports that would be printed, and
    abort() by a boolean result. */
module GlUtils {

  datatype Option<T> = None | Some(value: T)

  /** A GLenum: an unsigned 32-bit integer. */
  type GLenum = x: int | 0 <= x < 0x1_0000_0000

  const GL_NO_ERROR: GLenum := 0
  const GL_INVALID_ENUM: GLenum := 0x0500
  const GL_INVALID_VALUE: GLenum := 0x0501
  const GL_INVALID_OPERATION: GLenum := 0x0502
  const GL_STACK_OVERFLOW: GLenum := 0x0503
  const GL_STACK_UNDERFLOW: GLenum := 0x0504
  const GL_OUT_OF_MEMORY: GLenum := 0x0505

  /** The most errors one call of raise_gl_error reports (NMaxErrors). */
  const MAX_ERRORS: nat := 10

  /** The six error codes the table names. */
  predicate IsNamedError(err: GLenum)
  {
    err == GL_INVALID_ENUM || err == GL_INVALID_VALUE || err == GL_INVALID_OPERATION ||
    err == GL_STACK_OVERFLOW || err == GL_STACK_UNDERFLOW || err == GL_OUT_OF_MEMORY
  }

  /** gl_error_string: a fixed text for GL_NO_ERROR and each named error,
      and "Unknown error" for every other code. */
  function GlErrorString(err: GLenum): (s: string)
    ensures s == "No error" <==> err == GL_NO_ERROR
    ensures s == "Unknown error" <==> err != GL_NO_ERROR && !IsNamedError(err)
  {
    if err == GL_NO_ERROR then "No error"
    else if err == GL_INVALID_ENUM then "Invalid enum"
    else if err == GL_INVALID_VALUE then "Invalid value"
    else if err == GL_INVALID_OPERATION then "Invalid operation"
    else if err == GL_STACK_OVERFLOW then "Stack overflow"
    else if err == GL_STACK_UNDERFLOW then "Stack underflow"
    else if err == GL_OUT_OF_MEMORY then "Out of memory"
    else "Unknown error"
  }

  /** The table tells the known codes apart: no two of them share a text. */
  lemma GlErrorStringDistinguishes(a: GLenum, b: GLenum)
    requires a == GL_NO_ERROR || IsNamedError(a)
    requires b == GL_NO_ERROR || IsNamedError(b)
    requires a != b
    ensures GlErrorString(a) != GlErrorString(b)
  {
  }

  /** glGetError on the queue of pending codes: the oldest code and the
      queue without it, or GL_NO_ERROR and the empty queue. */
  function GetError(queue: seq<GLenum>): (r: (GLenum, seq<GLenum>))
    ensures |queue| == 0 ==> r == (GL_NO_ERROR, [])
    ensures |queue| > 0 ==> [r.0] + r.1 == queue
  {
    if |queue| == 0 then (GL_NO_ERROR, []) else (queue[0], queue[1..])
  }

  /** The codes that the loop of raise_gl_error reports when the current
      code is `err`, the pending queue is `queue` and at most `budget`
      more reports are allowed. */
  function Drained(err: GLenum, queue: seq<GLenum>, budget: nat): (reported: seq<GLenum>)
    ensures |reported| <= budget
    ensures forall k :: 0 <= k < |reported| ==> reported[k] != GL_NO_ERROR
    ensures |reported| > 0 <==> err != GL_NO_ERROR && budget > 0
    decreases budget
  {
    if err == GL_NO_ERROR || budget == 0 then []
    else
      var (next, rest) := GetError(queue);
      [err] + Drained(next, rest, budget - 1)
  }

  /** The position of the first GL_NO_ERROR in `s`, or |s| if there is none. */
  function FirstNoError(s: seq<GLenum>): (k: nat)
    ensures k <= |s|
    ensures forall j :: 0 <= j < k ==> s[j] != GL_NO_ERROR
    ensures k < |s| ==> s[k] == GL_NO_ERROR
  {
    if |s| == 0 || s[0] == GL_NO_ERROR then 0 else 1 + FirstNoError(s[1..])
  }

  /** The smaller of `a` and `b`. */
  function Min(a: nat, b: nat): nat { if a <= b then a else b }

  /** Reference description of the drain: the pending codes, starting with
      `err`, up to the first GL_NO_ERROR or up to the budget, whichever
      comes first. */
  lemma {:induction false} DrainedIsPrefixUpToFirstNoError(err: GLenum, queue: seq<GLenum>, budget: nat)
    ensures Drained(err, queue, budget) == ([err] + queue)[..Min(budget, FirstNoError([err] + queue))]
    decreases budget
  {
    var s := [err] + queue;
    if err == GL_NO_ERROR || budget == 0 {
    } else {
      var (next, rest) := GetError(queue);
      DrainedIsPrefixUpToFirstNoError(next, rest, budget - 1);
      if |queue| == 0 {
        assert FirstNoError([next] + rest) == 0;
        assert FirstNoError(s[1..]) == 0;
      } else {
        assert [next] + rest == queue == s[1..];
      }
      assert FirstNoError(s) == 1 + FirstNoError(s[1..]);
    }
  }

  /** One printed diagnostic of raise_gl_error: where the call was, the call
      text when there is one ("raised Error") or none ("Caught Error"), the
      code and its text. */
  datatype Report = Report(file: string, line: int, call: Option<string>, code: GLenum, text: string)

  /** The diagnostics printed for the codes `codes`, in order; the call
      site they carry tells a failed GL_CALL ("raised Error", with the call)
      from an error caught elsewhere ("Caught Error", without it). */
  function ReportsOf(codes: seq<GLenum>, call: Option<string>, file: string, line: int): (rs: seq<Report>)
    ensures |rs| == |codes|
    ensures forall k :: 0 <= k < |codes| ==> rs[k].code == codes[k] && rs[k].text == GlErrorString(codes[k])
    ensures forall k :: 0 <= k < |codes| ==> rs[k].call == call && rs[k].file == file && rs[k].line == line
  {
    seq(|codes|, k requires 0 <= k < |codes| => Report(file, line, call, codes[k], GlErrorString(codes[k])))
  }

  /** The state of raise_gl_error's loop after `nErrors` reports: `codes`
      were reported as `reports`, the current code is `e`, the queue is down
      to `q`, and what is still to be reported completes the drain. */
  ghost predicate Draining(err: GLenum, queue: seq<GLenum>, call: Option<string>, file: string, line: int,
                           codes: seq<GLenum>, reports: seq<Report>, e: GLenum, q: seq<GLenum>, nErrors: nat)
  {
    && nErrors <= MAX_ERRORS
    && |codes| == nErrors
    && codes + Drained(e, q, MAX_ERRORS - nErrors) == Drained(err, queue, MAX_ERRORS)
    && reports == ReportsOf(codes, call, file, line)
    && q == queue[Min(nErrors, |queue|)..]
    && (nErrors > 0 || e == err)
  }

  /** One turn of the loop: report `e`, fetch the next code. */
  lemma DrainAdvance(err: GLenum, queue: seq<GLenum>, call: Option<string>, file: string, line: int,
                     codes: seq<GLenum>, reports: seq<Report>, e: GLenum, q: seq<GLenum>, nErrors: nat)
    requires Draining(err, queue, call, file, line, codes, reports, e, q, nErrors)
    requires e != GL_NO_ERROR && nErrors < MAX_ERRORS
    ensures Draining(err, queue, call, file, line, codes + [e], reports + [Report(file, line, call, e, GlErrorString(e))],
                     GetError(q).0, GetError(q).1, nErrors + 1)
  {
    DrainStep(codes, e, q, MAX_ERRORS - nErrors, Drained(err, queue, MAX_ERRORS));
    ReportsOfAppend(codes, e, call, file, line);
    QueueDrops(queue, nErrors);
  }

  /** Reporting `e` moves it from the codes still to be reported to the
      codes reported. */
  lemma DrainStep(codes: seq<GLenum>, e: GLenum, q: seq<GLenum>, budget: nat, total: seq<GLenum>)
    requires e != GL_NO_ERROR && budget > 0
    requires codes + Drained(e, q, budget) == total
    ensures (codes + [e]) + Drained(GetError(q).0, GetError(q).1, budget - 1) == total
  {
    var later := Drained(GetError(q).0, GetError(q).1, budget - 1);
    assert Drained(e, q, budget) == [e] + later;
    assert (codes + [e]) + later == codes + ([e] + later);
  }

  /** One more code reported is one more diagnostic printed. */
  lemma ReportsOfAppend(codes: seq<GLenum>, e: GLenum, call: Option<string>, file: string, line: int)
    ensures ReportsOf(codes + [e], call, file, line)
         == ReportsOf(codes, call, file, line) + [Report(file, line, call, e, GlErrorString(e))]
  {
  }

  /** Each glGetError takes one more code off the front of the queue. */
  lemma QueueDrops(queue: seq<GLenum>, n: nat)
    ensures GetError(queue[Min(n, |queue|)..]).1 == queue[Min(n + 1, |queue|)..]
  {
  }

  /** When the loop stops, everything the drain reports has been reported. */
  lemma DrainFinished(err: GLenum, queue: seq<GLenum>, call: Option<string>, file: string, line: int,
                      codes: seq<GLenum>, reports: seq<Report>, e: GLenum, q: seq<GLenum>, nErrors: nat)
    requires Draining(err, queue, call, file, line, codes, reports, e, q, nErrors)
    requires e == GL_NO_ERROR || nErrors >= MAX_ERRORS
    ensures codes == Drained(err, queue, MAX_ERRORS)
    ensures nErrors > 0 <==> err != GL_NO_ERROR
  {
    assert Drained(e, q, MAX_ERRORS - nErrors) == [];
  }

  /** raise_gl_error: report `err` and then the codes returned by glGetError
      until one is GL_NO_ERROR or ten have been reported; warn when ten were
      reported; abort when at least one was. Returns the diagnostics, the
      queue left behind, whether the warning was printed and whether the
      process aborts. */
  method RaiseGlError(err: GLenum, call: Option<string>, file: string, line: int, queue: seq<GLenum>)
    returns (reports: seq<Report>, rest: seq<GLenum>, warned: bool, aborted: bool)
    ensures reports == ReportsOf(Drained(err, queue, MAX_ERRORS), call, file, line)
    ensures |reports| <= MAX_ERRORS
    ensures rest == queue[Min(|reports|, |queue|)..]
    ensures warned <==> |reports| == MAX_ERRORS
    ensures aborted <==> |reports| > 0
    ensures aborted <==> err != GL_NO_ERROR
  {
    var e := err;
    var q := queue;
    var nErrors: nat := 0;
    ghost var codes: seq<GLenum> := [];
    reports := [];
    while e != GL_NO_ERROR && nErrors < MAX_ERRORS
      invariant Draining(err, queue, call, file, line, codes, reports, e, q, nErrors)
      decreases MAX_ERRORS - nErrors
    {
      DrainAdvance(err, queue, call, file, line, codes, reports, e, q, nErrors);
      reports := reports + [Report(file, line, call, e, GlErrorString(e))];
      codes := codes + [e];
      e, q := GetError(q).0, GetError(q).1;
      nErrors := nErrors + 1;
    }
    DrainFinished(err, queue, call, file, line, codes, reports, e, q, nErrors);
    warned := nErrors >= MAX_ERRORS;
    aborted := nErrors > 0;
    rest := q;
  }

  /** The check GL_CALL runs after the wrapped call: one glGetError, and
      raise_gl_error on its result when that is not GL_NO_ERROR. */
  method CheckGlCall(call: string, file: string, line: int, queue: seq<GLenum>)
    returns (reports: seq<Report>, rest: seq<GLenum>, warned: bool, aborted: bool)
    ensures aborted <==> |queue| > 0 && queue[0] != GL_NO_ERROR
    ensures !aborted ==> reports == [] && rest == GetError(queue).1 && !warned
    ensures aborted ==> reports == ReportsOf(Drained(queue[0], queue[1..], MAX_ERRORS), Some(call), file, line)
    ensures aborted ==> rest == queue[1..][Min(|reports|, |queue| - 1)..]
    ensures aborted ==> (warned <==> |reports| == MAX_ERRORS)
    ensures |reports| <= MAX_ERRORS
  {
    var (err, remaining) := GetError(queue);
    if err != GL_NO_ERROR {
      reports, rest, warned, aborted := RaiseGlError(err, Some(call), file, line, remaining);
    } else {
      reports, rest, warned, aborted := [], remaining, false, false;
    }
  }
}
