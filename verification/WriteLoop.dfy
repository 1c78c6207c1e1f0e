/** Sending a response header and body with one vectored write after another. */
module WriteLoop {
  datatype Outcome = Sent | Failed | WroteZero

  /** What the stream answers to its `n`-th write when offered that many bytes: how many it took, or an error. */
  datatype Answer = Took(count: nat) | Error

  ghost predicate TakesWhatIsOffered(stream: (nat, nat) -> Answer) {
    forall n: nat, offered: nat :: stream(n, offered).Took? ==> stream(n, offered).count <= offered
  }

  /** How many bytes the stream has taken after `n` writes, each of which offered it all that was left. */
  function Taken(stream: (nat, nat) -> Answer, total: nat, n: nat): nat {
    if n == 0 then 0
    else
      var before := Taken(stream, total, n - 1);
      var answer := stream(n - 1, if before <= total then total - before else 0);
      before + if answer.Took? then answer.count else 0
  }

  /**
   * `sent` is what the stream took, in order: after `writes` writes always a prefix of the header and
   * the body, all of it on success, and cut short only by an error or an empty write.
   */
  method WriteResponse(header: seq<nat>, body: seq<nat>, stream: (nat, nat) -> Answer)
    returns (outcome: Outcome, sent: seq<nat>, writes: nat)
    requires TakesWhatIsOffered(stream)
    ensures sent <= header + body
    ensures outcome == Sent <==> sent == header + body
    ensures outcome == Failed ==> writes > 0 && stream(writes - 1, |header + body| - |sent|) == Error
    ensures outcome == WroteZero ==> writes > 0 && stream(writes - 1, |header + body| - |sent|) == Took(0)
    ensures |sent| == Taken(stream, |header + body|, writes)
    ensures outcome == Sent ==> writes <= |header + body|
  {
    var headerPos: nat, headerToWrite: nat := 0, |header|;
    var bodyPos: nat, bodyToWrite: nat := 0, |body|;
    sent, writes := [], 0;
    while headerToWrite > 0 || bodyToWrite > 0
      invariant headerPos + headerToWrite == |header| && bodyPos + bodyToWrite == |body|
      invariant headerToWrite > 0 ==> bodyPos == 0
      invariant sent == header[..headerPos] + body[..bodyPos]
      invariant writes <= headerPos + bodyPos && |sent| == Taken(stream, |header + body|, writes)
      decreases headerToWrite + bodyToWrite
    {
      var headerSpan, bodySpan := header[headerPos..], body[bodyPos..];
      var answer := stream(writes, |headerSpan| + |bodySpan|);
      assert |header + body| - |sent| == |headerSpan| + |bodySpan|;
      writes := writes + 1;
      assert Taken(stream, |header + body|, writes) == |sent| + if answer.Took? then answer.count else 0;
      Prefix(header, body, headerPos, bodyPos);
      if answer.Error? { return Failed, sent, writes; }
      var written := answer.count;
      if written == 0 { return WroteZero, sent, writes; }
      sent := sent + (headerSpan + bodySpan)[..written];
      Advance(header, body, headerPos, bodyPos, written);
      headerPos, headerToWrite, bodyPos, bodyToWrite :=
        Consume(headerPos, headerToWrite, bodyPos, bodyToWrite, written);
    }
    outcome := Sent;
  }

  /** What was written counts for the header first and then for the body. */
  method Consume(hp: nat, hw: nat, bp: nat, bw: nat, count: nat)
    returns (headerPos: nat, headerToWrite: nat, bodyPos: nat, bodyToWrite: nat)
    requires count <= hw + bw
    ensures headerPos + headerToWrite == hp + hw && bodyPos + bodyToWrite == bp + bw
    ensures headerPos == hp + if count <= hw then count else hw
    ensures bodyPos == bp + if count <= hw then 0 else count - hw
  {
    var written := count;
    headerPos, headerToWrite, bodyPos, bodyToWrite := hp, hw, bp, bw;
    if headerToWrite > 0 {
      if written >= headerToWrite {
        written := written - headerToWrite;
        headerPos := headerPos + headerToWrite;
        headerToWrite := 0;
      } else {
        headerPos := headerPos + written;
        headerToWrite := headerToWrite - written;
        written := 0;
      }
    }
    if written > 0 && bodyToWrite > 0 {
      if written >= bodyToWrite {
        bodyPos := bodyPos + bodyToWrite;
        bodyToWrite := 0;
      } else {
        bodyPos := bodyPos + written;
        bodyToWrite := bodyToWrite - written;
      }
    }
  }

  /** What one write adds, by whether it got past the header. */
  lemma Advance(header: seq<nat>, body: seq<nat>, h: nat, b: nat, n: nat)
    requires h <= |header| && b <= |body| && (h < |header| ==> b == 0) && n <= |header| - h + |body| - b
    ensures header[..h] + body[..b] + (header[h..] + body[b..])[..n] ==
            if n <= |header| - h then header[..h + n] + body[..b] else header + body[..b + (n - (|header| - h))]
  {
    var r := |header| - h;
    if n <= r {
      assert (header[h..] + body[b..])[..n] == header[h..h + n];
      assert header[..h] + header[h..h + n] == header[..h + n];
    } else {
      assert (header[h..] + body[b..])[..n] == header[h..] + body[b..b + (n - r)];
      assert header[..h] + header[h..] == header && body[..b] + body[b..b + (n - r)] == body[..b + (n - r)];
    }
  }

  lemma Prefix(header: seq<nat>, body: seq<nat>, h: nat, b: nat)
    requires h <= |header| && b <= |body| && (h < |header| ==> b == 0)
    ensures header[..h] + body[..b] <= header + body
    ensures header[..h] + body[..b] == header + body <==> h == |header| && b == |body|
  {
  }
}
