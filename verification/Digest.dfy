/**
 Digest credentials (internal/shelly/digest.go): the cached challenge and its request
 counter, changed only under the client's mutex, so that any interleaving of concurrent
 calls is some sequence of challenges and headers.
 */
module Digest {
  import opened Wrappers

  const WORD: nat := 0x1_0000_0000

  /** A WWW-Authenticate header as parsed: realm and nonce, "" where absent. */
  datatype Challenge = Challenge(realm: string, nonce: string)

  datatype DigestState = DigestState(realm: string, nonce: string, nc: nat)

  /** What an Authorization header commits to. */
  datatype Pair = Pair(nonce: string, nc: nat)

  // ----- every interleaving

  datatype Op = NewChallenge(nonce: string) | Header

  /** One header of a run: which challenge it answers, and the how-many-th answer to it this is. */
  datatype Sent = Sent(challenge: nat, nonce: string, count: nat)
  {
    /** What goes out: the counter has only 32 bits. */
    function Wire(): Pair { Pair(nonce, count % WORD) }
  }

  /** The state a run has reached: how many challenges so far, the newest one's nonce, and its headers so far. */
  datatype Run = Run(challenges: nat, nonce: string, count: nat, sent: seq<Sent>)

  const START := Run(0, "", 0, [])

  function Step(r: Run, op: Op): Run
  {
    match op
    case NewChallenge(nonce) => r.(challenges := r.challenges + 1, nonce := nonce, count := 0)
    case Header =>
      if r.challenges == 0 then r
      else r.(count := r.count + 1, sent := r.sent + [Sent(r.challenges, r.nonce, r.count + 1)])
  }

  function RunOf(ops: seq<Op>): Run
  {
    if ops == [] then START else Step(RunOf(ops[..|ops| - 1]), ops[|ops| - 1])
  }

  /** The client's own counter is the run's, cut to 32 bits: AuthHeader sends what the run records. */
  predicate Tracks(auth: Option<DigestState>, r: Run)
  {
    if r.challenges == 0 then auth.None? else auth.Some? && auth.value.nonce == r.nonce && auth.value.nc == r.count % WORD
  }

  // ----- the client's state

  /** (a % n + 1) % n is (a + 1) % n. */
  lemma NextRemainder(a: nat)
    ensures (a % WORD + 1) % WORD == (a + 1) % WORD
  {
  }

  class Credentials {
    const password: string
    var auth: Option<DigestState>
    /** Everything done under the mutex so far. */
    ghost var run: Run

    ghost predicate Valid()
      reads this
    {
      Tracks(auth, run)
    }

    constructor (password: string)
      ensures Valid() && this.password == password && run == START
    {
      this.password := password;
      auth := None;
      run := START;
    }

    method SetChallenge(c: Challenge) returns (ok: bool)
      requires Valid()
      modifies this
      ensures Valid() && (ok <==> c.realm != "" && c.nonce != "")
      ensures run == if ok then Step(old(run), NewChallenge(c.nonce)) else old(run)
    {
      if c.realm == "" || c.nonce == "" {
        return false;
      }
      auth := Some(DigestState(c.realm, c.nonce, 0));
      run := Step(run, NewChallenge(c.nonce));
      return true;
    }

    /** authHeader: count the request, modulo the width of the counter, and commit to the count. */
    method AuthHeader() returns (header: Option<Pair>)
      requires Valid()
      modifies this
      ensures Valid() && (header.None? <==> old(run).challenges == 0 || password == "")
      ensures run == if header.None? then old(run) else Step(old(run), Header)
      ensures header.Some? ==> run.sent != [] && header.value == run.sent[|run.sent| - 1].Wire()
      ensures header.Some? ==> header.value == Pair(old(run).nonce, (old(run).count + 1) % 0x1_0000_0000)
    {
      if auth.None? || password == "" {
        return None;
      }
      NextRemainder(run.count);
      var nc := (auth.value.nc + 1) % WORD;
      auth := Some(auth.value.(nc := nc));
      run := Step(run, Header);
      return Some(Pair(auth.value.nonce, nc));
    }
  }

  // ----- every run

  /** Each header of a run continues its challenge: it is the first, or the one before it is there. */
  ghost predicate Gapless(r: Run)
  {
    && (forall i :: 0 <= i < |r.sent| ==> 1 <= r.sent[i].challenge <= r.challenges && 1 <= r.sent[i].count)
    && (forall i :: 0 <= i < |r.sent| && r.sent[i].challenge == r.challenges ==> r.sent[i].count <= r.count && r.sent[i].nonce == r.nonce)
    && (forall i, j :: 0 <= i < j < |r.sent| ==>
          || r.sent[i].challenge < r.sent[j].challenge
          || (r.sent[i].challenge == r.sent[j].challenge && r.sent[i].nonce == r.sent[j].nonce && r.sent[i].count < r.sent[j].count))
    && (forall i, c: nat :: 0 <= i < |r.sent| && 1 <= c <= r.sent[i].count ==> Has(r.sent, r.sent[i].challenge, c))
    && (forall c: nat :: r.challenges > 0 && 1 <= c <= r.count ==> Has(r.sent, r.challenges, c))
  }

  ghost predicate Has(sent: seq<Sent>, challenge: nat, count: nat)
  {
    exists i :: 0 <= i < |sent| && sent[i].challenge == challenge && sent[i].count == count
  }

  lemma HasGrows(sent: seq<Sent>, x: Sent, challenge: nat, count: nat)
    requires Has(sent, challenge, count) || (x.challenge == challenge && x.count == count)
    ensures Has(sent + [x], challenge, count)
  {
    if Has(sent, challenge, count) {
      var i :| 0 <= i < |sent| && sent[i].challenge == challenge && sent[i].count == count;
      assert (sent + [x])[i] == sent[i];
    } else {
      assert (sent + [x])[|sent|] == x;
    }
  }

  lemma StepGapless(r: Run, op: Op)
    requires Gapless(r)
    ensures Gapless(Step(r, op))
  {
    if op.Header? && r.challenges > 0 {
      var r' := Step(r, op);
      var x := Sent(r.challenges, r.nonce, r.count + 1);
      forall i, c: nat | 0 <= i < |r'.sent| && 1 <= c <= r'.sent[i].count ensures Has(r'.sent, r'.sent[i].challenge, c) {
        HasGrows(r.sent, x, r'.sent[i].challenge, c);
      }
      forall c: nat | 1 <= c <= r'.count ensures Has(r'.sent, r'.challenges, c) {
        HasGrows(r.sent, x, r'.challenges, c);
      }
    }
  }

  /** In every run the headers answering one challenge are its 1st, 2nd, 3rd, ... without gaps or repeats. */
  lemma {:induction false} RunsAreGapless(ops: seq<Op>)
    ensures Gapless(RunOf(ops))
  {
    if ops != [] {
      RunsAreGapless(ops[..|ops| - 1]);
      StepGapless(RunOf(ops[..|ops| - 1]), ops[|ops| - 1]);
    }
  }

  /** No two headers commit to the same nonce and count. */
  ghost predicate NoReuse(sent: seq<Sent>)
  {
    forall i, j :: 0 <= i < j < |sent| ==> sent[i].Wire() != sent[j].Wire()
  }

  /** Answered challenges have different nonces, and none is answered more often than the counter can count. */
  ghost predicate FreshNonces(sent: seq<Sent>)
  {
    && (forall i, j :: 0 <= i < j < |sent| && sent[i].challenge != sent[j].challenge ==> sent[i].nonce != sent[j].nonce)
    && (forall i :: 0 <= i < |sent| ==> sent[i].count <= WORD)
  }

  lemma SameRemainder(a: nat, b: nat)
    requires 1 <= a < b <= WORD
    ensures a % WORD != b % WORD
  {
  }

  /**
   A (nonce, nc) pair is never used twice exactly when the device never reissues a nonce
   the client answers, and no nonce serves more than 2^32 requests.
   */
  lemma NoReuseExactly(ops: seq<Op>)
    ensures NoReuse(RunOf(ops).sent) <==> FreshNonces(RunOf(ops).sent)
  {
    RunsAreGapless(ops);
    var sent := RunOf(ops).sent;
    if FreshNonces(sent) {
      forall i, j | 0 <= i < j < |sent| ensures sent[i].Wire() != sent[j].Wire() {
        if sent[i].challenge == sent[j].challenge {
          SameRemainder(sent[i].count, sent[j].count);
        }
      }
    } else if i, j :| 0 <= i < j < |sent| && sent[i].challenge != sent[j].challenge && sent[i].nonce == sent[j].nonce {
      ReissueCollides(RunOf(ops), i, j);
    } else {
      var i :| 0 <= i < |sent| && sent[i].count > WORD;
      WrapCollides(RunOf(ops), i);
    }
  }

  /** The first answers to two challenges with one nonce commit to the same pair. */
  lemma ReissueCollides(r: Run, i: nat, j: nat)
    requires Gapless(r) && i < j < |r.sent| && r.sent[i].challenge != r.sent[j].challenge && r.sent[i].nonce == r.sent[j].nonce
    ensures !NoReuse(r.sent)
  {
    var a := First(r, i, 1);
    var b := First(r, j, 1);
    assert r.sent[a].Wire() == r.sent[b].Wire();
    assert a < b || b < a;
  }

  lemma WrapCollides(r: Run, i: nat)
    requires Gapless(r) && i < |r.sent| && r.sent[i].count > WORD
    ensures !NoReuse(r.sent)
  {
    var a := First(r, i, r.sent[i].count - WORD);
    assert (r.sent[i].count - WORD) % WORD == r.sent[i].count % WORD;
    assert r.sent[a].Wire() == r.sent[i].Wire();
    assert a < i || i < a;
  }

  lemma First(r: Run, i: nat, c: nat) returns (a: nat)
    requires Gapless(r) && i < |r.sent| && 1 <= c <= r.sent[i].count
    ensures a < |r.sent| && r.sent[a].challenge == r.sent[i].challenge && r.sent[a].nonce == r.sent[i].nonce && r.sent[a].count == c
  {
    assert Has(r.sent, r.sent[i].challenge, c);
    a :| 0 <= a < |r.sent| && r.sent[a].challenge == r.sent[i].challenge && r.sent[a].count == c;
    assert a < i || i < a || a == i;
  }
}
