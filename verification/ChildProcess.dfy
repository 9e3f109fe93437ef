// runChild: what the callbacks of one spawned process accumulate, and the output cap.
module ChildProcess {
  import opened Wrappers

  datatype Source = Stdout | Stderr

  datatype Chunk = Chunk(source: Source, text: string)

  function CharBytes(c: char): nat {
    if c as int < 0x80 then 1 else if c as int < 0x800 then 2 else if c as int < 0x10000 then 3 else 4
  }

  // Buffer.byteLength(text), in UTF-8.
  function ByteLength(s: string): nat {
    if s == "" then 0 else ByteLength(s[..|s| - 1]) + CharBytes(s[|s| - 1])
  }

  function Total(chunks: seq<Chunk>): nat {
    if chunks == [] then 0 else Total(chunks[..|chunks| - 1]) + ByteLength(chunks[|chunks| - 1].text)
  }

  function Texts(chunks: seq<Chunk>, source: Source): string {
    if chunks == [] then ""
    else
      var last := chunks[|chunks| - 1];
      Texts(chunks[..|chunks| - 1], source) + (if last.source == source then last.text else "")
  }

  // `code` is None when a signal ended the process.
  datatype Outcome = Outcome(
    code: Option<int>, stdout: string, stderr: string,
    timedOut: bool, outputExceeded: bool, spawnError: bool, closed: bool)

  // The variables the callbacks share; `outcome` is set when the promise resolves.
  datatype Child = Child(
    stdout: string, stderr: string, bytes: nat,
    timedOut: bool, outputExceeded: bool, spawnError: bool, outcome: Option<Outcome>)

  function Spawned(): Child {
    Child("", "", 0, false, false, false, None)
  }

  // one-shot-process-adapter.mjs 319-329
  function Collect(child: Child, chunk: Chunk, cap: nat): Child {
    var bytes := child.bytes + ByteLength(chunk.text);
    if bytes > cap then child.(bytes := bytes, outputExceeded := true)
    else if chunk.source.Stdout? then child.(bytes := bytes, stdout := child.stdout + chunk.text)
    else child.(bytes := bytes, stderr := child.stderr + chunk.text)
  }

  // 333-338: only the first close settles the promise.
  function Close(child: Child, code: Option<int>): Child {
    if child.outcome.Some? then child
    else child.(outcome := Some(Outcome(
      code, child.stdout, child.stderr, child.timedOut, child.outputExceeded, child.spawnError, true)))
  }

  function Feed(chunks: seq<Chunk>, cap: nat): Child {
    if chunks == [] then Spawned() else Collect(Feed(chunks[..|chunks| - 1], cap), chunks[|chunks| - 1], cap)
  }

  // ----- The cap -----

  lemma {:induction false} TotalGrows(chunks: seq<Chunk>, k: nat)
    requires k <= |chunks|
    ensures Total(chunks[..k]) <= Total(chunks)
    decreases |chunks|
  {
    if k == |chunks| {
      assert chunks[..k] == chunks;
    } else {
      TotalGrows(chunks[..|chunks| - 1], k);
      assert chunks[..|chunks| - 1][..k] == chunks[..k];
    }
  }

  lemma {:induction false} BytesConcat(a: string, b: string)
    ensures ByteLength(a + b) == ByteLength(a) + ByteLength(b)
  {
    if b == "" {
      assert a + b == a;
    } else {
      assert (a + b)[..|a + b| - 1] == a + b[..|b| - 1];
      BytesConcat(a, b[..|b| - 1]);
    }
  }

  lemma {:induction false} TextBytes(chunks: seq<Chunk>)
    ensures ByteLength(Texts(chunks, Stdout)) + ByteLength(Texts(chunks, Stderr)) == Total(chunks)
  {
    if chunks != [] {
      var init, last := chunks[..|chunks| - 1], chunks[|chunks| - 1];
      TextBytes(init);
      BytesConcat(Texts(init, Stdout), if last.source == Stdout then last.text else "");
      BytesConcat(Texts(init, Stderr), if last.source == Stderr then last.text else "");
    }
  }

  // The child holds exactly the chunks before `k`, and `k` is where the cap was first passed.
  predicate KeepsPrefix(child: Child, chunks: seq<Chunk>, k: nat, cap: nat) {
    && k <= |chunks| && Total(chunks[..k]) <= cap
    && child.stdout == Texts(chunks[..k], Stdout) && child.stderr == Texts(chunks[..k], Stderr)
    && child.bytes == Total(chunks)
    && (child.outputExceeded <==> k < |chunks|)
    && (k < |chunks| ==> Total(chunks[..k + 1]) > cap)
    && !child.timedOut && !child.spawnError && child.outcome.None?
  }

  lemma FeedStep(child: Child, chunks: seq<Chunk>, k: nat, cap: nat) returns (m: nat)
    requires chunks != [] && KeepsPrefix(child, chunks[..|chunks| - 1], k, cap)
    ensures KeepsPrefix(Collect(child, chunks[|chunks| - 1], cap), chunks, m, cap)
  {
    var n := |chunks| - 1;
    var init, last := chunks[..n], chunks[n];
    assert init[..k] == chunks[..k];
    m := k;
    if k < n {
      assert init[..k + 1] == chunks[..k + 1];
      TotalGrows(init, k + 1);
    } else {
      assert init[..k] == init;
      assert chunks[..n + 1] == chunks;
      if Total(chunks) <= cap {
        m := n + 1;
      }
    }
  }

  // For every order of chunks: the retained chunks are exactly the longest arriving prefix that
  // fits, the flag says whether anything did not fit, and what is retained stays within the cap.
  lemma {:induction false} OutputCap(chunks: seq<Chunk>, cap: nat) returns (k: nat)
    ensures KeepsPrefix(Feed(chunks, cap), chunks, k, cap)
    ensures Feed(chunks, cap).outputExceeded <==> Total(chunks) > cap
    ensures ByteLength(Feed(chunks, cap).stdout) + ByteLength(Feed(chunks, cap).stderr) <= cap
  {
    if chunks == [] {
      k := 0;
    } else {
      var j := OutputCap(chunks[..|chunks| - 1], cap);
      k := FeedStep(Feed(chunks[..|chunks| - 1], cap), chunks, j, cap);
    }
    TextBytes(chunks[..k]);
    if k < |chunks| {
      TotalGrows(chunks, k + 1);
    } else {
      assert chunks[..k] == chunks;
    }
  }

  // The flags do not disturb what is collected.
  predicate SameOutput(a: Child, b: Child) {
    a.stdout == b.stdout && a.stderr == b.stderr && a.bytes == b.bytes && a.outputExceeded == b.outputExceeded
  }

  // ----- The callbacks -----

  class RunChild {
    const cap: nat
    var stdout: string
    var stderr: string
    var bytes: nat
    var timedOut: bool
    var outputExceeded: bool
    var spawnError: bool
    var settled: bool
    var resolved: Option<Outcome>
    ghost var arrived: seq<Chunk>

    ghost predicate Valid()
      reads this
    {
      && SameOutput(View(), Feed(arrived, cap))
      && settled == resolved.Some?
    }

    function View(): Child
      reads this
    {
      Child(stdout, stderr, bytes, timedOut, outputExceeded, spawnError, resolved)
    }

    constructor (cap: nat)
      ensures Valid() && View() == Spawned() && this.cap == cap && arrived == []
    {
      this.cap := cap;
      stdout, stderr, bytes := "", "", 0;
      timedOut, outputExceeded, spawnError, settled, resolved := false, false, false, false, None;
      arrived := [];
    }

    method OnData(chunk: Chunk)
      requires Valid()
      modifies this
      ensures Valid() && arrived == old(arrived) + [chunk]
      ensures View() == Collect(old(View()), chunk, cap)
    {
      arrived := arrived + [chunk];
      assert arrived[..|arrived| - 1] == old(arrived);
      bytes := bytes + ByteLength(chunk.text);
      if bytes > cap {
        outputExceeded := true;
        return;
      }
      if chunk.source.Stdout? {
        stdout := stdout + chunk.text;
      } else {
        stderr := stderr + chunk.text;
      }
    }

    method OnTimeout()
      requires Valid()
      modifies this`timedOut
      ensures Valid() && View() == old(View()).(timedOut := true)
    {
      timedOut := true;
    }

    method OnError()
      requires Valid()
      modifies this`spawnError
      ensures Valid() && View() == old(View()).(spawnError := true)
    {
      spawnError := true;
    }

    method OnClose(code: Option<int>)
      requires Valid()
      modifies this`settled, this`resolved
      ensures Valid() && View() == Close(old(View()), code)
    {
      if settled {
        return;
      }
      settled := true;
      resolved := Some(Outcome(code, stdout, stderr, timedOut, outputExceeded, spawnError, true));
    }

    // In every order of callbacks, what is kept obeys the cap.
    lemma Capped() returns (k: nat)
      requires Valid()
      ensures k <= |arrived| && stdout == Texts(arrived[..k], Stdout) && stderr == Texts(arrived[..k], Stderr)
      ensures k < |arrived| <==> outputExceeded
      ensures k < |arrived| ==> Total(arrived[..k + 1]) > cap
      ensures ByteLength(stdout) + ByteLength(stderr) <= cap
    {
      k := OutputCap(arrived, cap);
    }
  }
}
