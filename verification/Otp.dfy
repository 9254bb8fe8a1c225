/**
 One-time codes in Redis (otp.service.ts): a hash with a time to live and an attempt counter, and a
 cooldown flag. Each call is one step; times and TTLs are in seconds.
 */
module Otp {
  import opened Common

  datatype Config = Config(expireTtl: nat, attemptsCount: nat, cooldownTtl: nat)

  /** Digests are only compared. */
  type Digest = nat

  datatype Code = Code(hash: Digest, attempts: nat, expiresAt: int)

  /** The two Redis keys of one account and purpose; a key past its time is as good as gone. */
  datatype Slot = Slot(code: Option<Code>, cooldownUntil: Option<int>)

  datatype Outcome = Issued | CoolingDown | Missing | Exhausted | Wrong(left: int) | Accepted

  predicate Live(s: Slot, now: int) {
    s.code.Some? && now < s.code.value.expiresAt
  }

  function Generated(c: Config, s: Slot, now: int, hash: Digest): (Outcome, Slot) {
    if s.cooldownUntil.Some? && now < s.cooldownUntil.value then (CoolingDown, s)
    else (Issued, Slot(Some(Code(hash, 0, now + c.expireTtl)), Some(now + c.cooldownTtl)))
  }

  function Verified(c: Config, s: Slot, now: int, hash: Digest): (Outcome, Slot) {
    if !Live(s, now) then (Missing, s)
    else
      var code := s.code.value.(attempts := s.code.value.attempts + 1);
      if code.attempts > c.attemptsCount then (Exhausted, s.(code := None))
      else if code.hash != hash then (Wrong(c.attemptsCount - code.attempts), s.(code := Some(code)))
      else (Accepted, Slot(None, None))
  }

  /** A call of verify, told of the fields: the first test that fails decides, and only the right code is accepted. */
  lemma VerifyDecides(c: Config, s: Slot, now: int, hash: Digest)
    ensures var (o, s') := Verified(c, s, now, hash);
            && (o.Accepted? <==>
                  && s.code.Some? && now < s.code.value.expiresAt && s.code.value.attempts < c.attemptsCount
                  && hash == s.code.value.hash)
            && (o.Missing? <==> s.code.None? || now >= s.code.value.expiresAt)
            && (o.Exhausted? <==>
                  s.code.Some? && now < s.code.value.expiresAt && s.code.value.attempts >= c.attemptsCount)
            && !o.Issued? && !o.CoolingDown?
            && (o.Accepted? ==> s' == Slot(None, None))
            && (o.Missing? ==> s' == s)
            && (o.Exhausted? ==> s' == Slot(None, s.cooldownUntil))
            && (o.Wrong? ==>
                  && var used := s.code.value.attempts + 1;
                  && o.left == c.attemptsCount - used >= 0
                  && s' == Slot(Some(Code(s.code.value.hash, used, s.code.value.expiresAt)), s.cooldownUntil))
  {
  }

  // ---- The service over one Redis ----

  datatype OtpKey = EMAIL | PASSWORD

  function Name(key: OtpKey): string {
    if key == EMAIL then "EMAIL" else "PASSWORD"
  }

  function CodeKey(id: string, key: OtpKey): string {
    "otp:" + Name(key) + ":" + id
  }

  function CooldownKey(id: string, key: OtpKey): string {
    CodeKey(id, key) + ":cooldown"
  }

  lemma CodeKeysDiffer(a: string, j: OtpKey, b: string, k: OtpKey)
    ensures CodeKey(a, j) == CodeKey(b, k) <==> a == b && j == k
    ensures CooldownKey(a, j) == CooldownKey(b, k) <==> a == b && j == k
  {
    var x, y := CodeKey(a, j), CodeKey(b, k);
    assert x[4] == (if j == EMAIL then 'E' else 'P') && y[4] == (if k == EMAIL then 'E' else 'P');
    var n := |"otp:" + Name(j) + ":"|;
    if j == k {
      assert x[n..] == a && y[n..] == b;
    }
    assert CooldownKey(a, j)[4] == x[4] && CooldownKey(b, k)[4] == y[4];
    if CooldownKey(a, j) == CooldownKey(b, k) {
      assert x == CooldownKey(a, j)[..|x|] && y == CooldownKey(b, k)[..|y|];
    }
  }

  /** A code key is never taken for a cooldown key unless one id is the other with the suffix itself. */
  lemma CodeKeyIsCooldownKeyIff(a: string, j: OtpKey, b: string, k: OtpKey)
    ensures CodeKey(a, j) == CooldownKey(b, k) <==> j == k && a == b + ":cooldown"
  {
    assert CooldownKey(b, k) == CodeKey(b + ":cooldown", k) by {
      assert "otp:" + Name(k) + ":" + (b + ":cooldown") == ("otp:" + Name(k) + ":" + b) + ":cooldown";
    }
    CodeKeysDiffer(a, j, b + ":cooldown", k);
  }

  class OtpService {
    const config: Config
    var codes: map<string, Code>
    var cooldowns: map<string, int>

    constructor (config: Config)
      ensures this.config == config && codes == map[] && cooldowns == map[]
    {
      this.config := config;
      codes, cooldowns := map[], map[];
    }

    function View(id: string, key: OtpKey): Slot
      reads this
    {
      Slot(if CodeKey(id, key) in codes then Some(codes[CodeKey(id, key)]) else None,
           if CooldownKey(id, key) in cooldowns then Some(cooldowns[CooldownKey(id, key)]) else None)
    }

    method Generate(id: string, key: OtpKey, now: int, hash: Digest) returns (r: Outcome)
      modifies this
      ensures (r, View(id, key)) == Generated(config, old(View(id, key)), now, hash)
      ensures var was := old(View(id, key));
              if was.cooldownUntil.Some? && now < was.cooldownUntil.value then r == CoolingDown && View(id, key) == was
              else
                && r == Issued
                && View(id, key) == Slot(Some(Code(hash, 0, now + config.expireTtl)), Some(now + config.cooldownTtl))
      ensures forall i, k | i != id || k != key :: View(i, k) == old(View(i, k))
    {
      var codeKey, cooldownKey := CodeKey(id, key), CooldownKey(id, key);
      forall i, k | i != id || k != key ensures CodeKey(i, k) != codeKey && CooldownKey(i, k) != cooldownKey {
        CodeKeysDiffer(i, k, id, key);
      }
      if cooldownKey in cooldowns && now < cooldowns[cooldownKey] {
        return CoolingDown;
      }
      codes := codes[codeKey := Code(hash, 0, now + config.expireTtl)];
      cooldowns := cooldowns[cooldownKey := now + config.cooldownTtl];
      return Issued;
    }

    method Verify(id: string, key: OtpKey, now: int, hash: Digest) returns (r: Outcome)
      modifies this
      ensures (r, View(id, key)) == Verified(config, old(View(id, key)), now, hash)
      ensures var was := old(View(id, key));
              r == Accepted <==>
                && was.code.Some? && now < was.code.value.expiresAt && was.code.value.attempts < config.attemptsCount
                && hash == was.code.value.hash
      ensures r == Accepted ==> View(id, key) == Slot(None, None)
      ensures forall i, k | i != id || k != key :: View(i, k) == old(View(i, k))
    {
      var codeKey, cooldownKey := CodeKey(id, key), CooldownKey(id, key);
      forall i, k | i != id || k != key ensures CodeKey(i, k) != codeKey && CooldownKey(i, k) != cooldownKey {
        CodeKeysDiffer(i, k, id, key);
      }
      if codeKey !in codes || now >= codes[codeKey].expiresAt {
        return Missing;
      }
      var storedHash := codes[codeKey].hash;
      var attempts := codes[codeKey].attempts + 1;
      codes := codes[codeKey := codes[codeKey].(attempts := attempts)];
      if attempts > config.attemptsCount {
        codes := codes - {codeKey};
        return Exhausted;
      }
      if storedHash != hash {
        return Wrong(config.attemptsCount - attempts);
      }
      codes := codes - {codeKey};
      cooldowns := cooldowns - {cooldownKey};
      return Accepted;
    }
  }

  // ---- Runs ----

  datatype Call = CallGenerate(now: int, hash: Digest) | CallVerify(now: int, hash: Digest)

  function Do(c: Config, s: Slot, call: Call): (Outcome, Slot) {
    match call
    case CallGenerate(now, h) => Generated(c, s, now, h)
    case CallVerify(now, h) => Verified(c, s, now, h)
  }

  function After(c: Config, s: Slot, calls: seq<Call>): Slot {
    if calls == [] then s else Do(c, After(c, s, calls[..|calls| - 1]), calls[|calls| - 1]).1
  }

  function OutcomeAt(c: Config, s: Slot, calls: seq<Call>, i: nat): Outcome
    requires i < |calls|
  {
    Do(c, After(c, s, calls[..i]), calls[i]).0
  }

  /** The outcomes that are counted. */
  datatype Kind = AnIssue | AComparison | AnAcceptance

  predicate Is(o: Outcome, kind: Kind) {
    match kind
    case AnIssue => o.Issued?
    case AComparison => o.Wrong? || o.Accepted?
    case AnAcceptance => o.Accepted?
  }

  function Count(c: Config, s: Slot, calls: seq<Call>, kind: Kind): nat {
    if calls == [] then 0
    else
      var n := |calls| - 1;
      Count(c, s, calls[..n], kind) + if Is(OutcomeAt(c, s, calls, n), kind) then 1 else 0
  }

  predicate Monotone(calls: seq<Call>) {
    forall i, j | 0 <= i < j < |calls| :: calls[i].now <= calls[j].now
  }

  /** Comparisons the stored code still allows. */
  function Budget(c: Config, s: Slot): nat {
    if s.code.Some? && s.code.value.attempts <= c.attemptsCount then c.attemptsCount - s.code.value.attempts else 0
  }

  function Stored(s: Slot): nat {
    if s.code.Some? then 1 else 0
  }

  /** One call spends the budget it uses; only a new code refills it. */
  lemma CallSpends(c: Config, s: Slot, call: Call)
    ensures var (o, s') := Do(c, s, call);
            && Budget(c, s') + (if Is(o, AComparison) then 1 else 0)
               <= Budget(c, s) + (if Is(o, AnIssue) then c.attemptsCount else 0)
            && Stored(s') + (if Is(o, AnAcceptance) then 1 else 0) <= Stored(s) + (if Is(o, AnIssue) then 1 else 0)
  {
  }

  /**
   From any state and with any calls: each issued code is compared at most `attemptsCount` times and
   accepted at most once.
   */
  lemma {:induction false} ComparisonsBounded(c: Config, s: Slot, calls: seq<Call>)
    ensures Count(c, s, calls, AComparison) + Budget(c, After(c, s, calls))
            <= Budget(c, s) + Count(c, s, calls, AnIssue) * c.attemptsCount
    ensures Count(c, s, calls, AnAcceptance) + Stored(After(c, s, calls)) <= Stored(s) + Count(c, s, calls, AnIssue)
  {
    if calls != [] {
      var n := |calls| - 1;
      var before := calls[..n];
      ComparisonsBounded(c, s, before);
      CallSpends(c, After(c, s, before), calls[n]);
      Refills(Count(c, s, before, AnIssue), Is(OutcomeAt(c, s, calls, n), AnIssue), c.attemptsCount);
    }
  }

  lemma Refills(issued: nat, issue: bool, attempts: nat)
    ensures (issued + if issue then 1 else 0) * attempts == issued * attempts + (if issue then attempts else 0)
  {
  }

  /** The last successful generate of a run, if there is one. */
  function LastIssue(c: Config, s: Slot, calls: seq<Call>): Option<int> {
    if calls == [] then None
    else if OutcomeAt(c, s, calls, |calls| - 1).Issued? then Some(calls[|calls| - 1].now)
    else LastIssue(c, s, calls[..|calls| - 1])
  }

  /** Without an acceptance the cooldown of the last code is still in place. */
  lemma {:induction false} CooldownStands(c: Config, s: Slot, calls: seq<Call>)
    requires Count(c, s, calls, AnAcceptance) == 0 && LastIssue(c, s, calls).Some?
    ensures After(c, s, calls).cooldownUntil == Some(LastIssue(c, s, calls).value + c.cooldownTtl)
  {
    var n := |calls| - 1;
    if !OutcomeAt(c, s, calls, n).Issued? {
      CooldownStands(c, s, calls[..n]);
    }
  }

  /** A new code comes a cooldown after the last one, if none was accepted. */
  lemma NextIssue(c: Config, s: Slot, before: seq<Call>, call: Call)
    requires Count(c, s, before, AnAcceptance) == 0 && LastIssue(c, s, before).Some?
    requires Do(c, After(c, s, before), call).0.Issued?
    ensures call.now >= LastIssue(c, s, before).value + c.cooldownTtl
  {
    CooldownStands(c, s, before);
  }

  /** So codes are issued at least a cooldown apart. */
  lemma {:induction false} IssuesSpaced(c: Config, s: Slot, calls: seq<Call>)
    requires Monotone(calls) && calls != [] && Count(c, s, calls, AnAcceptance) == 0
    ensures Spaced(Count(c, s, calls, AnIssue), LastIssue(c, s, calls), c.cooldownTtl, calls[0].now,
                   calls[|calls| - 1].now)
  {
    var n := |calls| - 1;
    var before, now := calls[..n], calls[n].now;
    if n == 0 {
      assert before == [];
      assert Count(c, s, before, AnIssue) == 0 && LastIssue(c, s, before) == None;
    } else {
      IssuesSpaced(c, s, before);
      assert before[n - 1].now <= now && before[0] == calls[0];
      var issued, last := Count(c, s, before, AnIssue), LastIssue(c, s, before);
      if OutcomeAt(c, s, calls, n).Issued? {
        if last.Some? {
          NextIssue(c, s, before, calls[n]);
        }
        SpacedMore(issued, last, c.cooldownTtl, calls[0].now, now);
      }
    }
  }

  /** `issued` codes since `start`, the last at `last`, each a cooldown after the one before. */
  predicate Spaced(issued: nat, last: Option<int>, cooldown: nat, start: int, now: int) {
    match last
    case None => issued == 0
    case Some(l) => issued >= 1 && Spans(issued - 1, cooldown, l - start) && l <= now
  }

  lemma SpacedMore(issued: nat, last: Option<int>, cooldown: nat, start: int, now: int)
    requires Spaced(issued, last, cooldown, start, now) && start <= now
    requires last.Some? ==> now >= last.value + cooldown
    ensures Spaced(issued + 1, Some(now), cooldown, start, now)
  {
    if last.Some? {
      SpansMore(issued - 1, cooldown, last.value - start, now - start);
    } else {
      assert Spans(0, cooldown, now - start);
    }
  }

  /** `gaps` cooldowns fit into the time. */
  predicate Spans(gaps: nat, cooldown: nat, time: int) {
    gaps * cooldown <= time
  }

  lemma SpansMore(gaps: nat, cooldown: nat, time: int, later: int)
    requires Spans(gaps, cooldown, time) && later >= time + cooldown
    ensures Spans(gaps + 1, cooldown, later)
  {
    assert (gaps + 1) * cooldown == gaps * cooldown + cooldown;
  }

  lemma {:induction false} FirstIssueCounts(c: Config, s: Slot, calls: seq<Call>)
    requires calls != [] && OutcomeAt(c, s, calls, 0).Issued?
    ensures Count(c, s, calls, AnIssue) >= 1
  {
    var before := calls[..|calls| - 1];
    if before != [] {
      assert before[..0] == calls[..0];
      FirstIssueCounts(c, s, before);
    }
  }

  /** Two codes issued with no acceptance between them are a cooldown apart, whatever came before. */
  lemma IssueGap(c: Config, s: Slot, calls: seq<Call>)
    requires |calls| >= 2 && Monotone(calls) && Count(c, s, calls, AnAcceptance) == 0
    requires OutcomeAt(c, s, calls, 0).Issued? && OutcomeAt(c, s, calls, |calls| - 1).Issued?
    ensures calls[|calls| - 1].now - calls[0].now >= c.cooldownTtl
  {
    var before := calls[..|calls| - 1];
    assert before[..0] == calls[..0];
    FirstIssueCounts(c, s, before);
    IssuesSpaced(c, s, calls);
    MulMono(1, Count(c, s, calls, AnIssue) - 1, c.cooldownTtl);
  }

  /**
   The rate bound: a run of length T in which no code is accepted compares at most
   `attemptsCount * (T / cooldownTtl + 1)` times, and as often again as a code stored before it still allows.
   */
  lemma RateBound(c: Config, s: Slot, calls: seq<Call>)
    requires c.cooldownTtl > 0 && Monotone(calls) && calls != []
    requires Count(c, s, calls, AnAcceptance) == 0
    ensures calls[|calls| - 1].now >= calls[0].now
    ensures var T := calls[|calls| - 1].now - calls[0].now;
            Count(c, s, calls, AComparison) <= Budget(c, s) + c.attemptsCount * (T / c.cooldownTtl + 1)
  {
    ComparisonsBounded(c, s, calls);
    IssuesSpaced(c, s, calls);
    assert calls[0].now <= calls[|calls| - 1].now;
    Rate(c.attemptsCount, c.cooldownTtl, Count(c, s, calls, AnIssue), Budget(c, s), Count(c, s, calls, AComparison),
         calls[|calls| - 1].now - calls[0].now);
  }

  /** Nothing is stored at first: the bound without a remainder. */
  lemma RateBoundFromEmpty(c: Config, calls: seq<Call>)
    requires c.cooldownTtl > 0 && Monotone(calls) && calls != []
    requires Count(c, Slot(None, None), calls, AnAcceptance) == 0
    ensures calls[|calls| - 1].now >= calls[0].now
    ensures var T := calls[|calls| - 1].now - calls[0].now;
            Count(c, Slot(None, None), calls, AComparison) <= c.attemptsCount * (T / c.cooldownTtl + 1)
  {
    RateBound(c, Slot(None, None), calls);
    assert Budget(c, Slot(None, None)) == 0;
  }

  lemma Rate(attempts: nat, cooldown: nat, issued: nat, budget: nat, compared: nat, T: nat)
    requires cooldown > 0 && compared <= budget + issued * attempts
    requires issued > 0 ==> (issued - 1) * cooldown <= T
    ensures compared <= budget + attempts * (T / cooldown + 1)
  {
    var k := T / cooldown;
    assert T == cooldown * k + T % cooldown;
    if issued > 0 {
      assert issued - 1 <= k by {
        if issued - 1 > k {
          MulMono(k + 1, issued - 1, cooldown);
        }
      }
      MulMono(issued, k + 1, attempts);
    }
  }

  lemma MulMono(a: nat, b: nat, m: nat)
    requires a <= b
    ensures a * m <= m * b && a * m <= b * m
  {
  }

  // ---- Which code is accepted ----

  /** Call `j` issued a code. */
  predicate IssuedAt(c: Config, s: Slot, calls: seq<Call>, j: nat) {
    j < |calls| && OutcomeAt(c, s, calls, j).Issued?
  }

  /** The code of call `j` is the last one, and was neither accepted nor used up since. */
  ghost predicate Pending(c: Config, s: Slot, calls: seq<Call>, j: nat) {
    && IssuedAt(c, s, calls, j)
    && forall k {:trigger OutcomeAt(c, s, calls, k)} | j < k < |calls| ::
         var o := OutcomeAt(c, s, calls, k); o.CoolingDown? || o.Missing? || o.Wrong?
  }

  /** The wrong codes that were tried after call `j`. */
  function Misses(c: Config, s: Slot, calls: seq<Call>, j: nat): nat {
    if |calls| <= j + 1 then 0
    else
      var n := |calls| - 1;
      Misses(c, s, calls[..n], j) + if OutcomeAt(c, s, calls, n).Wrong? then 1 else 0
  }

  lemma OutcomeBefore(c: Config, s: Slot, calls: seq<Call>, n: nat, i: nat)
    requires i < n <= |calls|
    ensures OutcomeAt(c, s, calls[..n], i) == OutcomeAt(c, s, calls, i)
  {
    assert calls[..n][..i] == calls[..i];
  }

  lemma PendingBefore(c: Config, s: Slot, calls: seq<Call>, j: nat)
    requires j + 1 < |calls|
    ensures var n := |calls| - 1;
            var o := OutcomeAt(c, s, calls, n);
            Pending(c, s, calls, j)
            <==> Pending(c, s, calls[..n], j) && (o.CoolingDown? || o.Missing? || o.Wrong?)
  {
    var n := |calls| - 1;
    forall i | 0 <= i < n ensures OutcomeAt(c, s, calls[..n], i) == OutcomeAt(c, s, calls, i) {
      OutcomeBefore(c, s, calls, n, i);
    }
    if Pending(c, s, calls, j) {
      forall k | j < k < n
        ensures var o := OutcomeAt(c, s, calls[..n], k); o.CoolingDown? || o.Missing? || o.Wrong?
      {
        assert OutcomeAt(c, s, calls[..n], k) == OutcomeAt(c, s, calls, k);
      }
    }
  }

  /** What is stored of a pending code: the digest and the lifetime it was issued with, and the misses since. */
  lemma {:induction false} PendingCode(c: Config, s: Slot, calls: seq<Call>, j: nat)
    requires Pending(c, s, calls, j)
    ensures calls[j].CallGenerate?
    ensures After(c, s, calls).code
         == Some(Code(calls[j].hash, Misses(c, s, calls, j), calls[j].now + c.expireTtl))
  {
    var n := |calls| - 1;
    if j < n {
      PendingBefore(c, s, calls, j);
      PendingCode(c, s, calls[..n], j);
      assert calls[..n][j] == calls[j];
    }
  }

  /** From an empty slot, what is stored is a pending code. */
  lemma {:induction false} StoredIsPending(c: Config, calls: seq<Call>) returns (j: nat)
    requires After(c, Slot(None, None), calls).code.Some?
    ensures Pending(c, Slot(None, None), calls, j)
  {
    var s, n := Slot(None, None), |calls| - 1;
    if OutcomeAt(c, s, calls, n).Issued? {
      j := n;
    } else {
      j := StoredIsPending(c, calls[..n]);
      OutcomeBefore(c, s, calls, n, j);
      PendingBefore(c, s, calls, j);
    }
  }

  /**
   A call of verify is accepted if, and only if, it presents the digest of the last code issued, within its
   lifetime, and that code was not accepted or used up yet and was missed fewer times than are allowed.
   */
  lemma AcceptedIff(c: Config, calls: seq<Call>, i: nat)
    requires i < |calls| && calls[i].CallVerify?
    ensures var s := Slot(None, None);
            OutcomeAt(c, s, calls, i).Accepted?
            <==> exists j: nat :: Pending(c, s, calls[..i], j) && calls[i].hash == calls[j].hash
                   && calls[i].now < calls[j].now + c.expireTtl && Misses(c, s, calls[..i], j) < c.attemptsCount
  {
    var s := Slot(None, None);
    VerifyDecides(c, After(c, s, calls[..i]), calls[i].now, calls[i].hash);
    if After(c, s, calls[..i]).code.Some? {
      var j := StoredIsPending(c, calls[..i]);
      PendingCode(c, s, calls[..i], j);
    }
    forall j: nat | Pending(c, s, calls[..i], j)
      ensures After(c, s, calls[..i]).code
           == Some(Code(calls[j].hash, Misses(c, s, calls[..i], j), calls[j].now + c.expireTtl))
    {
      PendingCode(c, s, calls[..i], j);
    }
  }

  /** So the first try after a code was issued, in time and with that code, is accepted, from whatever came before. */
  lemma FirstTryAccepted(c: Config, s: Slot, calls: seq<Call>, j: nat, i: nat)
    requires j < i < |calls| && c.attemptsCount >= 1 && IssuedAt(c, s, calls, j)
    requires forall k | j < k < i :: calls[k].CallGenerate? && !IssuedAt(c, s, calls, k)
    requires calls[i].CallVerify? && calls[i].hash == calls[j].hash && calls[i].now < calls[j].now + c.expireTtl
    ensures OutcomeAt(c, s, calls, i).Accepted?
  {
    UntriedPending(c, s, calls, j, i);
    PendingCode(c, s, calls[..i], j);
    VerifyDecides(c, After(c, s, calls[..i]), calls[i].now, calls[i].hash);
  }

  lemma {:induction false} UntriedPending(c: Config, s: Slot, calls: seq<Call>, j: nat, i: nat)
    requires j < i <= |calls| && IssuedAt(c, s, calls, j)
    requires forall k | j < k < i :: calls[k].CallGenerate? && !IssuedAt(c, s, calls, k)
    ensures Pending(c, s, calls[..i], j) && Misses(c, s, calls[..i], j) == 0
    decreases i
  {
    OutcomeBefore(c, s, calls, i, j);
    if j + 1 < i {
      UntriedPending(c, s, calls, j, i - 1);
      assert calls[..i][..i - 1] == calls[..i - 1];
      assert calls[i - 1].CallGenerate? && !IssuedAt(c, s, calls, i - 1);
      OutcomeBefore(c, s, calls, i, i - 1);
      PendingBefore(c, s, calls[..i], j);
    }
  }

  // ---- When a code is issued ----

  /** The code of call `j` is the last one issued, and no code was accepted since: its cooldown stands. */
  ghost predicate Cooling(c: Config, s: Slot, calls: seq<Call>, j: nat) {
    && IssuedAt(c, s, calls, j)
    && forall k {:trigger OutcomeAt(c, s, calls, k)} | j < k < |calls| ::
         !OutcomeAt(c, s, calls, k).Issued? && !OutcomeAt(c, s, calls, k).Accepted?
  }

  lemma CoolingBefore(c: Config, s: Slot, calls: seq<Call>, j: nat)
    requires j + 1 < |calls|
    ensures var n := |calls| - 1;
            Cooling(c, s, calls, j)
            <==> && Cooling(c, s, calls[..n], j)
                 && !OutcomeAt(c, s, calls, n).Issued? && !OutcomeAt(c, s, calls, n).Accepted?
  {
    var n := |calls| - 1;
    forall i | 0 <= i < n ensures OutcomeAt(c, s, calls[..n], i) == OutcomeAt(c, s, calls, i) {
      OutcomeBefore(c, s, calls, n, i);
    }
    if Cooling(c, s, calls, j) {
      forall k | j < k < n
        ensures !OutcomeAt(c, s, calls[..n], k).Issued? && !OutcomeAt(c, s, calls[..n], k).Accepted?
      {
        assert OutcomeAt(c, s, calls[..n], k) == OutcomeAt(c, s, calls, k);
      }
    }
  }

  lemma {:induction false} CoolingUntil(c: Config, s: Slot, calls: seq<Call>, j: nat)
    requires Cooling(c, s, calls, j)
    ensures After(c, s, calls).cooldownUntil == Some(calls[j].now + c.cooldownTtl)
  {
    var n := |calls| - 1;
    if j < n {
      CoolingBefore(c, s, calls, j);
      CoolingUntil(c, s, calls[..n], j);
      assert calls[..n][j] == calls[j];
    }
  }

  lemma {:induction false} CooldownIsCooling(c: Config, calls: seq<Call>) returns (j: nat)
    requires After(c, Slot(None, None), calls).cooldownUntil.Some?
    ensures Cooling(c, Slot(None, None), calls, j)
  {
    var s, n := Slot(None, None), |calls| - 1;
    if OutcomeAt(c, s, calls, n).Issued? {
      j := n;
    } else {
      j := CooldownIsCooling(c, calls[..n]);
      OutcomeBefore(c, s, calls, n, j);
      CoolingBefore(c, s, calls, j);
    }
  }

  /** A code is issued if, and only if, the cooldown of the last one is over or that code was accepted. */
  lemma IssuedIff(c: Config, calls: seq<Call>, i: nat)
    requires i < |calls| && calls[i].CallGenerate?
    ensures var s := Slot(None, None);
            OutcomeAt(c, s, calls, i).Issued?
            <==> !exists j: nat :: Cooling(c, s, calls[..i], j) && calls[i].now < calls[j].now + c.cooldownTtl
  {
    var s := Slot(None, None);
    if After(c, s, calls[..i]).cooldownUntil.Some? {
      var j := CooldownIsCooling(c, calls[..i]);
      CoolingUntil(c, s, calls[..i], j);
    }
    forall j: nat | Cooling(c, s, calls[..i], j)
      ensures After(c, s, calls[..i]).cooldownUntil == Some(calls[j].now + c.cooldownTtl)
    {
      CoolingUntil(c, s, calls[..i], j);
    }
  }
}
