/**
 * GetPodLogs: open the pod's log stream, copy all of it into a fresh buffer
 * and return the buffer as a string. An error opening or reading the stream
 * is returned with "" and whatever had been copied is dropped. The stream is
 * closed on every path after a successful open.
 */
module Logs {
  import opened Maybe
  import opened Cluster

  /** The chunks of the stream written one after the other: the whole output. */
  function Concat(chunks: seq<string>): string {
    if |chunks| == 0 then "" else chunks[0] + Concat(chunks[1..])
  }

  /** Total size of the chunks. */
  function TotalLength(chunks: seq<string>): nat {
    if |chunks| == 0 then 0 else |chunks[0]| + TotalLength(chunks[1..])
  }

  /**
   * The buffer after io.Copy wrote every chunk into it, in order, starting
   * from its current contents.
   */
  function Drain(buf: string, chunks: seq<string>): (r: string)
    ensures |r| == |buf| + TotalLength(chunks)
    ensures r[..|buf|] == buf
    decreases |chunks|
  {
    if |chunks| == 0 then buf else Drain(buf + chunks[0], chunks[1..])
  }

  /** The Go pair (string, error) together with the calls made. */
  datatype LogsReturn = LogsReturn(logs: string, err: Option<Error>, events: seq<Event>)

  function GetPodLogs(podName: string, stream: LogStream): (r: LogsReturn)
    // All or nothing: an error comes with the empty string.
    ensures r.err.Some? ==> r.logs == ""
    ensures r.err.None? <==> stream.Opened? && stream.readErr.None?
    ensures stream.OpenFailed? ==> r.err == Some(stream.err) && r.events == [OpenLogs(podName)]
    // The stream is closed after a successful open, whether or not the copy fails.
    ensures stream.Opened? ==> r.err == stream.readErr && r.events == [OpenLogs(podName), CloseLogs(podName)]
  {
    match stream
    case OpenFailed(e) => LogsReturn("", Some(e), [OpenLogs(podName)])
    case Opened(chunks, readErr) =>
      var buf := Drain("", chunks);
      if readErr.Some? then LogsReturn("", readErr, [OpenLogs(podName), CloseLogs(podName)])
      else LogsReturn(buf, None, [OpenLogs(podName), CloseLogs(podName)])
  }

  /** Writing chunks into a buffer appends their concatenation to it. */
  lemma {:induction false} DrainIsConcat(buf: string, chunks: seq<string>)
    ensures Drain(buf, chunks) == buf + Concat(chunks)
    decreases |chunks|
  {
    if |chunks| > 0 {
      DrainIsConcat(buf + chunks[0], chunks[1..]);
      assert buf + chunks[0] + Concat(chunks[1..]) == buf + (chunks[0] + Concat(chunks[1..]));
    }
  }

  /** On success the logs are the whole output: every chunk, in order. */
  lemma LogsAreWholeOutput(podName: string, stream: LogStream)
    requires stream.Opened? && stream.readErr.None?
    ensures GetPodLogs(podName, stream) == LogsReturn(Concat(stream.chunks), None, [OpenLogs(podName), CloseLogs(podName)])
  {
    DrainIsConcat("", stream.chunks);
  }

  /** The concatenation of two runs of chunks is the concatenation of their outputs. */
  lemma {:induction false} ConcatAppend(a: seq<string>, b: seq<string>)
    ensures Concat(a + b) == Concat(a) + Concat(b)
    decreases |a|
  {
    if |a| == 0 {
      assert a + b == b;
    } else {
      assert (a + b)[1..] == a[1..] + b;
      ConcatAppend(a[1..], b);
    }
  }

  /** Where the chunks fall does not matter: splitting one chunk in two gives the same output. */
  lemma ChunkBoundariesIrrelevant(before: seq<string>, chunk: string, j: nat, after: seq<string>)
    requires j <= |chunk|
    ensures Concat(before + [chunk] + after) == Concat(before + [chunk[..j], chunk[j..]] + after)
  {
    ConcatAppend(before + [chunk], after);
    ConcatAppend(before, [chunk]);
    ConcatAppend(before + [chunk[..j], chunk[j..]], after);
    ConcatAppend(before, [chunk[..j], chunk[j..]]);
    var two := [chunk[..j], chunk[j..]];
    assert two[1..] == [chunk[j..]];
    assert [chunk[j..]][1..] == [];
    assert [chunk][1..] == [];
    assert chunk[..j] + chunk[j..] == chunk;
  }

  /** The output is as long as all the chunks together, and chunk i sits right after chunks 0..i-1. */
  lemma {:induction false} ChunkAtOffset(chunks: seq<string>, i: nat)
    requires i < |chunks|
    ensures |Concat(chunks)| == TotalLength(chunks)
    ensures TotalLength(chunks[..i]) + |chunks[i]| <= |Concat(chunks)|
    ensures Concat(chunks)[TotalLength(chunks[..i])..TotalLength(chunks[..i]) + |chunks[i]|] == chunks[i]
    decreases i
  {
    DrainIsConcat("", chunks);
    assert "" + Concat(chunks) == Concat(chunks);
    if i == 0 {
      assert chunks[..0] == [];
    } else {
      ChunkAtOffset(chunks[1..], i - 1);
      assert chunks[1..][i - 1] == chunks[i];
      assert chunks[..i][1..] == chunks[1..][..i - 1];
      var off := TotalLength(chunks[1..][..i - 1]);
      assert TotalLength(chunks[..i]) == |chunks[0]| + off;
    }
  }

  /** No output, in any number of empty chunks, gives the empty string. */
  lemma {:induction false} EmptyOutput(chunks: seq<string>)
    requires forall i :: 0 <= i < |chunks| ==> chunks[i] == ""
    ensures Concat(chunks) == ""
    decreases |chunks|
  {
    if |chunks| > 0 {
      EmptyOutput(chunks[1..]);
    }
  }
}
