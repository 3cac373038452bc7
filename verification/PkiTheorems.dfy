/** What any sequence of cut runs of generate-pki.py leaves behind. */
module PkiTheorems {
  import opened Wrappers
  import opened Pki

  /** One run: the keys openssl would draw and the file steps before it is killed. */
  datatype Run = Run(caKey: nat, keys: nat -> nat, budget: nat)

  function Steps(dir: Dir, run: Run): seq<Op> {
    var ops := RunOps(dir, run.caKey, run.keys);
    if run.budget < |ops| then ops[..run.budget] else ops
  }

  /** The directory a run leaves, cut or not. */
  function After(dir: Dir, run: Run): Dir { Apply(dir, Steps(dir, run)) }

  /** The method and the specification function tell the same run. */
  lemma {:induction false} RanIsAfter(dir: Dir, run: Run, after: Dir, left: nat)
    requires Ran(dir, run.budget, RunOps(dir, run.caKey, run.keys), after, left)
    ensures after == After(dir, run)
  {
    var ops := RunOps(dir, run.caKey, run.keys);
    assert ops[..|ops|] == ops;
  }

  /* ---------------- nothing is overwritten ---------------- */

  predicate AllNew(dir: Dir, ops: seq<Op>) { forall k :: 0 <= k < |ops| ==> ops[k].file !in dir }

  lemma {:induction false} NewOpsKeep(dir: Dir, ops: seq<Op>)
    requires AllNew(dir, ops)
    ensures forall f :: f in dir ==> f in Apply(dir, ops) && Apply(dir, ops)[f] == dir[f]
  {
    if ops != [] {
      NewOpsKeep(dir, ops[..|ops| - 1]);
    }
  }

  lemma {:induction false} IssueIsNew(dir: Dir, i: nat, key: nat, signer: Option<nat>)
    requires i < COUNT && Absent(dir, i)
    ensures AllNew(dir, IssueOps(i, key, signer))
  {
    IssueOpsAre(i, key, signer);
    hide IssueOps;
    var ops := IssueOps(i, key, signer);
    assert forall k :: 0 <= k < |ops| ==> ops[k].file == File(Stem(i), ops[k].file.ext);
    forall k | 0 <= k < |ops| ensures ops[k].file !in dir {
      AbsentAll(dir, i, ops[k].file.ext);
    }
  }

  lemma {:induction false} AbsentAll(dir: Dir, i: nat, ext: Ext)
    requires i < COUNT && Absent(dir, i)
    ensures File(Stem(i), ext) !in dir
  {
    hide Stem;
    match ext
    case Key => case Crt => case Csr => case Cnf =>
  }

  lemma {:induction false} IdentityOpsNew(dir: Dir, i: nat, keys: nat -> nat, signer: Option<nat>)
    requires i <= COUNT
    ensures AllNew(dir, IdentityOps(dir, i, keys, signer))
    decreases COUNT - i
  {
    hide Absent, Complete, IssueOps;
    if i < COUNT {
      IdentityOpsNew(dir, i + 1, keys, signer);
      if Absent(dir, i) {
        IssueIsNew(dir, i, keys(i), signer);
      }
    }
  }

  /** Starting from any directory at all, no run changes or removes anything that was there:
      in particular no key and no certificate is ever replaced. */
  lemma {:induction false} NothingIsOverwritten(dir: Dir, run: Run)
    ensures forall f :: f in dir ==> f in After(dir, run) && After(dir, run)[f] == dir[f]
  {
    IdentityOpsNew(dir, 0, run.keys, SignerAfterCa(dir, run.caKey));
    hide IdentityOps;
    NewOpsKeep(dir, Steps(dir, run));
  }

  /* ---------------- the shape runs leave ---------------- */

  /** Complete, with a certificate issued by that CA for the identity's own key. */
  predicate Issued(dir: Dir, i: nat, ca: nat)
    requires i < COUNT
  {
    && Complete(dir, i)
    && var key, crt := dir[File(Stem(i), Key)].content, dir[File(Stem(i), Crt)].content;
       key.PrivateKey?
       && crt == Leaf(key.id, IDENTITIES[i].commonName, IDENTITIES[i].usage, IDENTITIES[i].san, ca)
  }

  /** Nothing but perhaps the CA's key. */
  predicate Bare(dir: Dir) {
    File(CA, Crt) !in dir && forall i :: 0 <= i < COUNT ==> Absent(dir, i)
  }

  /** A complete prefix issued by the present CA, at most one partial identity, absent ones. */
  predicate Built(dir: Dir, ca: nat, n: nat) {
    && n <= COUNT && Signer(dir) == Some(ca)
    && (forall i :: 0 <= i < n ==> Issued(dir, i, ca))
    && (n < COUNT ==> !Complete(dir, n))
    && (forall i :: n < i < COUNT ==> Absent(dir, i))
  }

  ghost predicate Shaped(dir: Dir) { Bare(dir) || exists ca: nat, n: nat :: Built(dir, ca, n) }

  /* ---- one identity being issued ---- */

  /** The six steps spelled out: the certificate comes fourth, and until the sixth an
      intermediate file is there. */
  lemma {:induction false} SixSteps(dir: Dir, s: string, key: Content, csr: Content, cnf: Content, crt: Content)
    requires forall ext :: File(s, ext) !in dir
    ensures var d1 := Do(dir, Write(File(s, Key), key));
      var d2 := Do(d1, Write(File(s, Csr), csr));
      var d3 := Do(d2, Write(File(s, Cnf), cnf));
      var d4 := Do(d3, Write(File(s, Crt), crt));
      var d5 := Do(d4, Remove(File(s, Csr)));
      var d6 := Do(d5, Remove(File(s, Cnf)));
      && File(s, Crt) !in d1 && File(s, Crt) !in d2 && File(s, Crt) !in d3 && File(s, Csr) in d4 && File(s, Cnf) in d5
      && File(s, Csr) !in d6 && File(s, Cnf) !in d6 && File(s, Key) in d6 && File(s, Crt) in d6
      && d6[File(s, Key)] == Regular(key) && d6[File(s, Crt)] == Regular(crt)
  {
  }

  /** Cut before its last step an identity is not complete; issued, it belongs to the CA. */
  lemma {:induction false} IssueInSteps(dir: Dir, i: nat, key: nat, ca: nat)
    requires i < COUNT && Absent(dir, i)
    ensures |IssueOps(i, key, Some(ca))| == 6
    ensures forall m :: 0 <= m < 6 ==> !Complete(Apply(dir, IssueOps(i, key, Some(ca))[..m]), i)
    ensures Issued(Apply(dir, IssueOps(i, key, Some(ca))), i, ca)
  {
    var ops, id := IssueOps(i, key, Some(ca)), IDENTITIES[i];
    IssueOpsAre(i, key, Some(ca));
    forall ext ensures File(id.name, ext) !in dir {
      AbsentAll(dir, i, ext);
    }
    hide IssueOps, Apply, Do, Issued;
    StepsInOrder(dir, ops, id.name);
    IssuedFrom(Apply(dir, ops), i, key, ca);
  }

  lemma {:induction false} IssuedFrom(dir: Dir, i: nat, key: nat, ca: nat)
    requires i < COUNT && File(Stem(i), Csr) !in dir && File(Stem(i), Cnf) !in dir && File(Stem(i), Key) in dir
    requires File(Stem(i), Crt) in dir
    requires dir[File(Stem(i), Key)] == Regular(PrivateKey(key))
    requires dir[File(Stem(i), Crt)]
          == Regular(Leaf(key, IDENTITIES[i].commonName, IDENTITIES[i].usage, IDENTITIES[i].san, ca))
    ensures Issued(dir, i, ca)
  {
  }

  lemma {:induction false} StepsInOrder(dir: Dir, ops: seq<Op>, s: string)
    requires |ops| == 6 && forall ext :: File(s, ext) !in dir
    requires ops[0].Write? && ops[0].file == File(s, Key) && ops[1].Write? && ops[1].file == File(s, Csr)
    requires ops[2].Write? && ops[2].file == File(s, Cnf) && ops[3].Write? && ops[3].file == File(s, Crt)
    requires ops[4] == Remove(File(s, Csr)) && ops[5] == Remove(File(s, Cnf))
    ensures forall m :: 0 <= m < 4 ==> File(s, Crt) !in Apply(dir, ops[..m])
    ensures File(s, Csr) in Apply(dir, ops[..4]) && File(s, Cnf) in Apply(dir, ops[..5])
    ensures var end := Apply(dir, ops);
      && File(s, Csr) !in end && File(s, Cnf) !in end && File(s, Key) in end && File(s, Crt) in end
      && end[File(s, Key)] == Regular(ops[0].content) && end[File(s, Crt)] == Regular(ops[3].content)
  {
    hide Apply, Do;
    SixSteps(dir, s, ops[0].content, ops[1].content, ops[2].content, ops[3].content);
    NoneYet(dir, ops);
    RanOne(dir, ops, 0);
    RanOne(dir, ops, 1);
    RanOne(dir, ops, 2);
    RanOne(dir, ops, 3);
    RanOne(dir, ops, 4);
    RanOne(dir, ops, 5);
    assert ops[..6] == ops;
  }

  /* ---- the identities one after the other ---- */

  lemma {:induction false} SameIssued(a: Dir, b: Dir, i: nat, ca: nat)
    requires i < COUNT && SameFiles(a, b, Stem(i)) && Issued(a, i, ca)
    ensures Issued(b, i, ca)
  {
    hide Stem, IDENTITIES;
  }

  /** Steps on identity n keep the rest of the shape. */
  lemma {:induction false} OthersKeep(dir: Dir, ca: nat, n: nat, ops: seq<Op>)
    requires Built(dir, ca, n) && n < COUNT && forall k :: 0 <= k < |ops| ==> ops[k].file.stem == Stem(n)
    ensures Signer(Apply(dir, ops)) == Some(ca)
    ensures forall i :: 0 <= i < COUNT && i != n ==> SameFiles(dir, Apply(dir, ops), Stem(i))
    ensures forall i :: 0 <= i < n ==> Issued(Apply(dir, ops), i, ca)
    ensures forall i :: n < i < COUNT ==> Absent(Apply(dir, ops), i)
  {
    StemsDistinct();
    hide Signer, Stem, Issued, Absent, Complete, SameFiles;
    SignerStays(dir, n, ops);
    forall i | 0 <= i < COUNT && i != n
      ensures SameFiles(dir, Apply(dir, ops), Stem(i))
      ensures i < n ==> Issued(Apply(dir, ops), i, ca)
      ensures i > n ==> Absent(Apply(dir, ops), i)
    {
      OneOtherKeeps(dir, ca, i, ops);
    }
  }

  lemma {:induction false} OneOtherKeeps(dir: Dir, ca: nat, i: nat, ops: seq<Op>)
    requires i < COUNT && forall k :: 0 <= k < |ops| ==> ops[k].file.stem != Stem(i)
    ensures SameFiles(dir, Apply(dir, ops), Stem(i))
    ensures Issued(dir, i, ca) ==> Issued(Apply(dir, ops), i, ca)
    ensures Absent(dir, i) ==> Absent(Apply(dir, ops), i)
  {
    hide Stem, Issued, Absent, Complete;
    OtherStemsStay(dir, ops, Stem(i));
    SameStates(dir, Apply(dir, ops), i);
    if Issued(dir, i, ca) {
      SameIssued(dir, Apply(dir, ops), i, ca);
    }
  }

  /** What the calls from i on do depends on the files of these identities only. */
  lemma {:induction false} OpsFrame(a: Dir, b: Dir, i: nat, keys: nat -> nat, signer: Option<nat>)
    requires i <= COUNT && forall j :: i <= j < COUNT ==> SameFiles(a, b, Stem(j))
    ensures IdentityOps(a, i, keys, signer) == IdentityOps(b, i, keys, signer)
    decreases COUNT - i
  {
    hide Stem, Absent, Complete, IssueOps, SameFiles;
    if i < COUNT {
      SameStates(a, b, i);
      OpsFrame(a, b, i + 1, keys, signer);
    }
  }

  /** Complete identities are skipped. */
  lemma {:induction false} SkipsComplete(dir: Dir, ca: nat, n: nat, i: nat, keys: nat -> nat, signer: Option<nat>)
    requires Built(dir, ca, n) && i <= n
    ensures IdentityOps(dir, i, keys, signer) == IdentityOps(dir, n, keys, signer)
    decreases n - i
  {
    hide Stem, Absent, Complete, IssueOps, Signer;
    if i < n {
      assert Issued(dir, i, ca);
      SkipsComplete(dir, ca, n, i + 1, keys, signer);
      NeverBoth(dir, i);
    }
  }

  /** From a built directory on, every prefix of the steps left leaves a built directory, and all
      of them together leave all twelve identities. */
  lemma {:induction false} PrefixIsBuilt(dir: Dir, ca: nat, n: nat, keys: nat -> nat, m: nat)
    requires n <= COUNT && Built(dir, ca, n) && m <= |IdentityOps(dir, n, keys, Some(ca))|
    ensures exists k: nat :: Built(Apply(dir, IdentityOps(dir, n, keys, Some(ca))[..m]), ca, k)
    ensures m == |IdentityOps(dir, n, keys, Some(ca))| && (n < COUNT ==> Absent(dir, n)) ==>
      Built(Apply(dir, IdentityOps(dir, n, keys, Some(ca))[..m]), ca, COUNT)
    decreases COUNT - n
  {
    hide Stem, Absent, Complete, IssueOps, Signer, Built, IdentityOps;
    var ops := IdentityOps(dir, n, keys, Some(ca));
    NoneYet(dir, ops);
    if n == COUNT {
      NoMoreOps(dir, keys, Some(ca));
    } else if !Absent(dir, n) {
      PartialStops(dir, ca, n, keys);
    } else {
      var here, next := IssueOps(n, keys(n), Some(ca)), Apply(dir, IssueOps(n, keys(n), Some(ca)));
      IssueGoesOn(dir, ca, n, keys);
      assert ops == here + IdentityOps(next, n + 1, keys, Some(ca));
      if m < 6 {
        assert ops[..m] == here[..m];
        CutIssue(dir, ca, n, keys, m);
      } else {
        var rest := IdentityOps(next, n + 1, keys, Some(ca));
        PrefixIsBuilt(next, ca, n + 1, keys, m - 6);
        assert ops[..m] == here + rest[..m - 6];
        ApplyConcat(dir, here, rest[..m - 6]);
      }
    }
  }

  lemma {:induction false} PartialStops(dir: Dir, ca: nat, n: nat, keys: nat -> nat)
    requires Built(dir, ca, n) && n < COUNT && !Absent(dir, n)
    ensures Partial(dir, n) && IdentityOps(dir, n, keys, Some(ca)) == []
  {
    hide Stem, Absent, Complete, IssueOps, Signer;
  }

  /** A run cut inside the issuing of identity n leaves it as the one partial identity. */
  lemma {:induction false} CutIssue(dir: Dir, ca: nat, n: nat, keys: nat -> nat, m: nat)
    requires Built(dir, ca, n) && n < COUNT && Absent(dir, n) && m < 6
    ensures |IssueOps(n, keys(n), Some(ca))| == 6
    ensures Built(Apply(dir, IssueOps(n, keys(n), Some(ca))[..m]), ca, n)
  {
    IssueOpsAre(n, keys(n), Some(ca));
    IssueInSteps(dir, n, keys(n), ca);
    hide Stem, Absent, Complete, IssueOps, Signer, Issued, Apply;
    var ops := IssueOps(n, keys(n), Some(ca))[..m];
    OthersKeep(dir, ca, n, ops);
  }

  /** Once issued, identity n belongs to the prefix and the next one is absent. */
  lemma {:induction false} IssueGoesOn(dir: Dir, ca: nat, n: nat, keys: nat -> nat)
    requires Built(dir, ca, n) && n < COUNT && Absent(dir, n)
    ensures var here := IssueOps(n, keys(n), Some(ca));
      var next := Apply(dir, here);
      && |here| == 6 && Built(next, ca, n + 1) && (n + 1 < COUNT ==> Absent(next, n + 1))
      && IdentityOps(dir, n, keys, Some(ca)) == here + IdentityOps(next, n + 1, keys, Some(ca))
  {
    IssueOpsAre(n, keys(n), Some(ca));
    IssueInSteps(dir, n, keys(n), ca);
    var here := IssueOps(n, keys(n), Some(ca));
    var next := Apply(dir, here);
    NeverBoth(dir, n);
    hide Stem, Absent, Complete, IssueOps, Signer, Issued, Apply, SameFiles;
    OthersKeep(dir, ca, n, here);
    OpsFrame(dir, next, n + 1, keys, Some(ca));
    if n + 1 < COUNT {
      NeverBoth(next, n + 1);
    }
  }

  /* ---- whole runs ---- */

  /** The CA's key without its certificate, or an identity begun and not finished. */
  ghost predicate Stuck(dir: Dir) {
    (File(CA, Key) in dir && File(CA, Crt) !in dir) || exists i :: 0 <= i < COUNT && Partial(dir, i)
  }

  /** Where an uncut run on a built directory starts working, and what it will do. */
  lemma {:induction false} RunOnBuilt(dir: Dir, ca: nat, n: nat, caKey: nat, keys: nat -> nat)
    requires n <= COUNT && Built(dir, ca, n)
    ensures CaPasses(dir) && SignerAfterCa(dir, caKey) == Some(ca)
    ensures RunOps(dir, caKey, keys) == IdentityOps(dir, n, keys, Some(ca))
    ensures RunPasses(dir, caKey) <==> (n < COUNT ==> Absent(dir, n))
    ensures Stuck(dir) <==> (n < COUNT && Partial(dir, n))
  {
    hide Stem, Absent, Complete, IssueOps;
    SkipsComplete(dir, ca, n, 0, keys, Some(ca));
    assert CaComplete(dir) && !CaAbsent(dir);
    BuiltPasses(dir, ca, n);
    hide IdentityOps, Signer, Built;
    assert [] + IdentityOps(dir, 0, keys, Some(ca)) == IdentityOps(dir, 0, keys, Some(ca));
  }

  lemma {:induction false} BuiltPasses(dir: Dir, ca: nat, n: nat)
    requires n <= COUNT && Built(dir, ca, n)
    ensures IdentitiesPass(dir, 0, Some(ca)) <==> (n < COUNT ==> Absent(dir, n))
    ensures (exists i :: 0 <= i < COUNT && Partial(dir, i)) <==> (n < COUNT && Partial(dir, n))
  {
    hide Stem, Absent, Complete, Signer;
    forall i | 0 <= i < COUNT
      ensures i < n ==> Complete(dir, i) && !Partial(dir, i)
      ensures i > n ==> Absent(dir, i) && !Partial(dir, i)
    {
      if i < n {
        assert Issued(dir, i, ca);
      }
    }
  }

  /** The directory right after the CA was made in a bare directory. */
  lemma {:induction false} FreshCa(dir: Dir, caKey: nat)
    requires Bare(dir) && CaAbsent(dir)
    ensures Built(Apply(dir, CaOps(dir, caKey)), caKey, 0) && Absent(Apply(dir, CaOps(dir, caKey)), 0)
    ensures Bare(Apply(dir, CaOps(dir, caKey)[..1]))
    ensures forall j :: 0 <= j < COUNT ==> SameFiles(dir, Apply(dir, CaOps(dir, caKey)), Stem(j))
  {
    CaLeaves(dir, caKey);
    var ops := CaOps(dir, caKey);
    var next := Apply(dir, ops);
    NoneYet(dir, ops);
    RanOne(dir, ops, 0);
    OnlyTheKey(dir, ops[..1]);
    assert SignerAfterCa(dir, caKey) == Some(caKey);
    hide Stem, Absent, Complete, Signer, CaOps, SameFiles, Apply;
    forall j | 0 <= j < COUNT ensures Absent(next, j) {
      SameStates(dir, next, j);
    }
    NeverBoth(next, 0);
  }

  lemma {:induction false} OnlyTheKey(dir: Dir, ops: seq<Op>)
    requires Bare(dir) && |ops| == 1 && ops[0].Write? && ops[0].file == File(CA, Key)
    ensures Bare(Apply(dir, ops))
  {
    StemsDistinct();
    NoneYet(dir, ops);
    RanOne(dir, ops, 0);
    assert ops[..1] == ops;
    hide Stem, Absent, Apply;
    forall j | 0 <= j < COUNT ensures Absent(Do(dir, ops[0]), j) {
      OtherStemKept(dir, ops[0], j);
    }
  }

  lemma {:induction false} OtherStemKept(dir: Dir, op: Op, j: nat)
    requires j < COUNT && op.Write? && op.file.stem != Stem(j) && Absent(dir, j)
    ensures Absent(Do(dir, op), j)
  {
    hide Stem;
  }

  /** The shape is kept by every run, cut wherever it may be; uncut and not stuck, a run leaves
      all twelve identities, issued by one CA. */
  lemma {:induction false} RunKeepsShape(dir: Dir, run: Run)
    requires Shaped(dir)
    ensures Shaped(After(dir, run))
    ensures !Stuck(dir) && run.budget >= |RunOps(dir, run.caKey, run.keys)| ==>
      exists ca: nat :: Built(After(dir, run), ca, COUNT)
  {
    hide Built, Bare, Stuck, RunOps, Apply, IdentityOps;
    if Bare(dir) {
      BareRun(dir, run);
    } else {
      var ca: nat, n: nat :| Built(dir, ca, n);
      BuiltRun(dir, ca, n, run);
    }
  }

  lemma {:induction false} BuiltRun(dir: Dir, ca: nat, n: nat, run: Run)
    requires Built(dir, ca, n)
    ensures exists k: nat :: Built(After(dir, run), ca, k)
    ensures !Stuck(dir) && run.budget >= |RunOps(dir, run.caKey, run.keys)| ==> Built(After(dir, run), ca, COUNT)
  {
    RunOnBuilt(dir, ca, n, run.caKey, run.keys);
    if n < COUNT {
      assert Partial(dir, n) || Absent(dir, n);
    }
    hide Built, Stuck, RunOps, Apply, IdentityOps, Absent, Complete, Stem;
    var ops := IdentityOps(dir, n, run.keys, Some(ca));
    var m := if run.budget < |ops| then run.budget else |ops|;
    assert ops[..|ops|] == ops && Steps(dir, run) == ops[..m];
    PrefixIsBuilt(dir, ca, n, run.keys, m);
    AfterIs(dir, run, ops[..m]);
    var k: nat :| Built(Apply(dir, ops[..m]), ca, k);
    assert Built(After(dir, run), ca, k);
  }

  lemma {:induction false} BareRun(dir: Dir, run: Run)
    requires Bare(dir)
    ensures Shaped(After(dir, run))
    ensures !Stuck(dir) && run.budget >= |RunOps(dir, run.caKey, run.keys)| ==> Built(After(dir, run), run.caKey, COUNT)
  {
    if CaAbsent(dir) {
      BareStart(dir, run);
    } else {
      assert Steps(dir, run) == [] && Apply(dir, []) == dir && Stuck(dir);
    }
  }

  lemma {:induction false} BareStart(dir: Dir, run: Run)
    requires Bare(dir) && CaAbsent(dir)
    ensures Shaped(After(dir, run))
    ensures run.budget >= |RunOps(dir, run.caKey, run.keys)| ==> Built(After(dir, run), run.caKey, COUNT)
  {
    hide *;
    FreshCa(dir, run.caKey);
    BareOps(dir, run.caKey, run.keys);
    var ca, next := CaOps(dir, run.caKey), Apply(dir, CaOps(dir, run.caKey));
    var all := RunOps(dir, run.caKey, run.keys);
    var m := if run.budget < |all| then run.budget else |all|;
    StepsAre(dir, run);
    NoneYet(dir, ca);
    if m < 2 {
      assert all[..m] == ca[..m];
      StillBare(dir, all[..m]);
    } else {
      var ids := IdentityOps(next, 0, run.keys, Some(run.caKey));
      assert all[..m] == ca + ids[..m - 2];
      ApplyConcat(dir, ca, ids[..m - 2]);
      PrefixIsBuilt(next, run.caKey, 0, run.keys, m - 2);
      StillShaped(Apply(dir, all[..m]), run.caKey);
    }
    AfterIs(dir, run, all[..m]);
  }

  lemma {:induction false} StepsAre(dir: Dir, run: Run)
    ensures var all := RunOps(dir, run.caKey, run.keys);
      Steps(dir, run) == all[..if run.budget < |all| then run.budget else |all|]
  {
    hide RunOps;
    var all := RunOps(dir, run.caKey, run.keys);
    assert all[..|all|] == all;
  }

  lemma {:induction false} AfterIs(dir: Dir, run: Run, ops: seq<Op>)
    requires Steps(dir, run) == ops
    ensures After(dir, run) == Apply(dir, ops)
  {
  }

  lemma {:induction false} StillBare(dir: Dir, ops: seq<Op>)
    requires Bare(Apply(dir, ops))
    ensures Shaped(Apply(dir, ops))
  {
  }

  lemma {:induction false} StillShaped(dir: Dir, ca: nat)
    requires exists k: nat :: Built(dir, ca, k)
    ensures Shaped(dir)
  {
    hide Built;
  }

  /** In a bare directory a run makes the CA and then every identity. */
  lemma {:induction false} BareOps(dir: Dir, caKey: nat, keys: nat -> nat)
    requires Bare(dir) && CaAbsent(dir)
    ensures |CaOps(dir, caKey)| == 2
    ensures RunOps(dir, caKey, keys)
         == CaOps(dir, caKey) + IdentityOps(Apply(dir, CaOps(dir, caKey)), 0, keys, Some(caKey))
  {
    FreshCa(dir, caKey);
    hide Built, Bare, Apply, IdentityOps, Absent, Complete, Stem, SameFiles;
    OpsFrame(dir, Apply(dir, CaOps(dir, caKey)), 0, keys, Some(caKey));
  }

  /** The directory after a sequence of runs in a new one. */
  function History(runs: seq<Run>): Dir {
    if runs == [] then map[] else After(History(runs[..|runs| - 1]), runs[|runs| - 1])
  }

  /** From an empty directory, over any sequence of runs each cut at any file step: at most the
      CA's key, or a complete prefix issued by the present CA, at most one partial identity, and
      absent ones. */
  lemma {:induction false} EveryHistoryIsShaped(runs: seq<Run>)
    ensures Shaped(History(runs))
  {
    if runs == [] {
      assert Bare(map[]);
    } else {
      hide Shaped, After;
      EveryHistoryIsShaped(runs[..|runs| - 1]);
      RunKeepsShape(History(runs[..|runs| - 1]), runs[|runs| - 1]);
    }
  }

  /** In such a directory a run exits with success exactly when nothing is stuck; a stuck one is
      never repaired: no later run writes anything. */
  lemma {:induction false} StuckForGood(dir: Dir, run: Run)
    requires Shaped(dir)
    ensures RunPasses(dir, run.caKey) <==> !Stuck(dir)
    ensures Stuck(dir) ==> RunOps(dir, run.caKey, run.keys) == [] && After(dir, run) == dir
  {
    assert Apply(dir, []) == dir;
    if Bare(dir) {
      BareStuck(dir, run);
    } else {
      var ca: nat, n: nat :| Built(dir, ca, n);
      RunOnBuilt(dir, ca, n, run.caKey, run.keys);
      if n < COUNT {
        NeverBoth(dir, n);
        if !Absent(dir, n) {
          PartialStops(dir, ca, n, run.keys);
        }
      }
      hide Built, RunPasses, Apply, IdentityOps, Stem, Absent, Complete, RunOps, Bare;
    }
  }

  lemma {:induction false} BareStuck(dir: Dir, run: Run)
    requires Bare(dir)
    ensures RunPasses(dir, run.caKey) <==> !Stuck(dir)
    ensures Stuck(dir) ==> RunOps(dir, run.caKey, run.keys) == []
  {
    hide Stem, Absent, Complete, IdentityOps;
    assert forall i :: 0 <= i < COUNT ==> Absent(dir, i) && !Partial(dir, i);
  }

  /** A finished directory is left alone by every later run. */
  lemma {:induction false} FinishedIsFixed(dir: Dir, ca: nat, run: Run)
    requires Built(dir, ca, COUNT)
    ensures RunPasses(dir, run.caKey) && RunOps(dir, run.caKey, run.keys) == []
  {
    RunOnBuilt(dir, ca, COUNT, run.caKey, run.keys);
    NoMoreOps(dir, run.keys, Some(ca));
  }

  /* ---------------- whose identities a run leaves ---------------- */

  lemma {:induction false} SameTwice(a: Dir, b: Dir, c: Dir, stem: string)
    requires SameFiles(a, b, stem) && SameFiles(b, c, stem)
    ensures SameFiles(a, c, stem)
  {
  }

  /** From identity i on: what was complete is left alone, what was absent is issued by the CA. */
  lemma {:induction false} LeavesOrIssues(dir: Dir, i: nat, keys: nat -> nat, ca: nat)
    requires i <= COUNT && IdentitiesPass(dir, i, Some(ca))
    ensures var end := Apply(dir, IdentityOps(dir, i, keys, Some(ca)));
      && Signer(end) == Signer(dir)
      && forall j :: 0 <= j < COUNT ==>
           if j < i || Complete(dir, j) then SameFiles(dir, end, Stem(j)) else Issued(end, j, ca)
    decreases COUNT - i
  {
    hide Stem, Absent, Complete, IssueOps, Signer, Issued, Apply, SameFiles, IdentityOps;
    if i == COUNT {
      NoMoreOps(dir, keys, Some(ca));
      StaysAsItIs(dir);
    } else {
      NeverBoth(dir, i);
      if Complete(dir, i) {
        OneSkipped(dir, i, keys, Some(ca));
        LeavesOrIssues(dir, i + 1, keys, ca);
      } else {
        var next := OneIssued(dir, i, keys, ca);
        LeavesOrIssues(next, i + 1, keys, ca);
        var end := Apply(next, IdentityOps(next, i + 1, keys, Some(ca)));
        SameIssued(next, end, i, ca);
        forall j | 0 <= j < COUNT && j != i
          ensures if j < i || Complete(dir, j) then SameFiles(dir, end, Stem(j)) else Issued(end, j, ca)
        {
          SameStates(dir, next, j);
          if j < i || Complete(dir, j) {
            SameTwice(dir, next, end, Stem(j));
          }
        }
      }
    }
  }

  lemma {:induction false} StaysAsItIs(dir: Dir)
    ensures Apply(dir, []) == dir && forall j :: 0 <= j < COUNT ==> SameFiles(dir, Apply(dir, []), Stem(j))
  {
    hide Stem;
  }

  lemma {:induction false} OneSkipped(dir: Dir, i: nat, keys: nat -> nat, signer: Option<nat>)
    requires i < COUNT && Complete(dir, i)
    ensures IdentityOps(dir, i, keys, signer) == IdentityOps(dir, i + 1, keys, signer)
  {
    hide Stem, Absent, Complete, IssueOps;
    NeverBoth(dir, i);
  }

  /** One absent identity is issued and the rest of the run goes on as planned. */
  lemma {:induction false} OneIssued(dir: Dir, i: nat, keys: nat -> nat, ca: nat) returns (next: Dir)
    requires i < COUNT && Absent(dir, i) && IdentitiesPass(dir, i, Some(ca))
    ensures Signer(next) == Signer(dir) && Issued(next, i, ca) && IdentitiesPass(next, i + 1, Some(ca))
    ensures forall j :: 0 <= j < COUNT && j != i ==> SameFiles(dir, next, Stem(j))
    ensures Apply(dir, IdentityOps(dir, i, keys, Some(ca))) == Apply(next, IdentityOps(next, i + 1, keys, Some(ca)))
  {
    var here := IssueOps(i, keys(i), Some(ca));
    next := Apply(dir, here);
    IssueOpsAre(i, keys(i), Some(ca));
    IssueInSteps(dir, i, keys(i), ca);
    StemsDistinct();
    NeverBoth(dir, i);
    hide Stem, Absent, Complete, IssueOps, Signer, Issued, Apply, SameFiles;
    SignerStays(dir, i, here);
    forall j | 0 <= j < COUNT && j != i
      ensures SameFiles(dir, next, Stem(j)) && (Absent(dir, j) <==> Absent(next, j))
      ensures (Complete(dir, j) <==> Complete(next, j))
    {
      OneOtherKeeps(dir, ca, j, here);
      SameStates(dir, next, j);
    }
    OpsFrame(dir, next, i + 1, keys, Some(ca));
    ApplyConcat(dir, here, IdentityOps(next, i + 1, keys, Some(ca)));
  }

  /** From any directory at all: an identity belongs to the CA present after a successful run
      exactly when it was not complete before or already belonged to that CA. So the run leaves
      identities of one CA only exactly when all that were complete before are that CA's. */
  lemma {:induction false} OneIssuerExactly(dir: Dir, ca: nat, run: Run)
    requires RunPasses(dir, run.caKey) && run.budget >= |RunOps(dir, run.caKey, run.keys)|
    requires SignerAfterCa(dir, run.caKey) == Some(ca)
    ensures Signer(After(dir, run)) == Some(ca)
    ensures forall i :: 0 <= i < COUNT ==>
      (Issued(After(dir, run), i, ca) <==> (Complete(dir, i) ==> Issued(dir, i, ca)))
    ensures (forall i :: 0 <= i < COUNT ==> Issued(After(dir, run), i, ca))
       <==> (forall i :: 0 <= i < COUNT && Complete(dir, i) ==> Issued(dir, i, ca))
  {
    var made := Apply(dir, CaOps(dir, run.caKey));
    CaLeaves(dir, run.caKey);
    hide Stem, Absent, Complete, Signer, Issued, Apply, SameFiles, IdentityOps, CaOps, SignerAfterCa;
    forall j | 0 <= j < COUNT
      ensures (Absent(dir, j) <==> Absent(made, j)) && (Complete(dir, j) <==> Complete(made, j))
    {
      SameStates(dir, made, j);
    }
    OpsFrame(dir, made, 0, run.keys, Some(ca));
    LeavesOrIssues(made, 0, run.keys, ca);
    var ids := IdentityOps(made, 0, run.keys, Some(ca));
    ApplyConcat(dir, CaOps(dir, run.caKey), ids);
    AfterIs(dir, run, CaOps(dir, run.caKey) + ids);
    var end := After(dir, run);
    forall i | 0 <= i < COUNT ensures Issued(end, i, ca) <==> (Complete(dir, i) ==> Issued(dir, i, ca)) {
      if Complete(dir, i) {
        SameTwice(dir, made, end, Stem(i));
        IssuedAlike(dir, end, i, ca);
      }
    }
  }

  lemma {:induction false} IssuedAlike(a: Dir, b: Dir, i: nat, ca: nat)
    requires i < COUNT && SameFiles(a, b, Stem(i))
    ensures Issued(a, i, ca) <==> Issued(b, i, ca)
  {
    hide Stem, IDENTITIES;
  }

  /** Completeness is judged by presence alone: identities issued by some other CA pass, nothing
      is written, and none of them belongs to the present one. */
  lemma {:induction false} OtherIssuerPasses(dir: Dir, ca: nat, issuer: nat, run: Run)
    requires Signer(dir) == Some(ca) && forall i :: 0 <= i < COUNT ==> Issued(dir, i, issuer)
    ensures RunPasses(dir, run.caKey) && RunOps(dir, run.caKey, run.keys) == []
    ensures issuer != ca ==> forall i :: 0 <= i < COUNT ==> !Issued(After(dir, run), i, ca)
  {
    hide Stem, Absent, IssueOps;
    assert CaComplete(dir) && !CaAbsent(dir);
    forall i | 0 <= i < COUNT ensures Complete(dir, i) {
      OneIssuer(dir, i, issuer, ca);
    }
    AllSkipped(dir, 0, run.keys, Some(ca));
    OneIssuerExactly(dir, ca, run);
    if issuer != ca {
      forall i | 0 <= i < COUNT ensures !Issued(dir, i, ca) {
        OneIssuer(dir, i, issuer, ca);
      }
    }
  }

  lemma {:induction false} OneIssuer(dir: Dir, i: nat, issuer: nat, ca: nat)
    requires i < COUNT && Issued(dir, i, issuer)
    ensures Complete(dir, i) && (Issued(dir, i, ca) ==> issuer == ca)
  {
    hide Stem, IDENTITIES;
  }

  lemma {:induction false} AllSkipped(dir: Dir, i: nat, keys: nat -> nat, signer: Option<nat>)
    requires i <= COUNT && forall j :: 0 <= j < COUNT ==> Complete(dir, j)
    ensures IdentityOps(dir, i, keys, signer) == []
    decreases COUNT - i
  {
    hide Stem, Absent, Complete, IssueOps;
    if i < COUNT {
      NeverBoth(dir, i);
      AllSkipped(dir, i + 1, keys, signer);
    }
  }

  /** A CA that cannot sign is noticed only when it is needed: the run succeeds exactly when all
      identities are complete, whoever issued them, and writes nothing then. */
  lemma {:induction false} NoSignerIssuesNothing(dir: Dir, run: Run)
    requires CaPasses(dir) && SignerAfterCa(dir, run.caKey) == None
    ensures RunPasses(dir, run.caKey) <==> forall i :: 0 <= i < COUNT ==> Complete(dir, i)
    ensures RunPasses(dir, run.caKey) ==> RunOps(dir, run.caKey, run.keys) == []
  {
    hide Stem, Absent, Complete, IssueOps;
    if RunPasses(dir, run.caKey) {
      AllSkipped(dir, 0, run.keys, None);
    }
  }
}
