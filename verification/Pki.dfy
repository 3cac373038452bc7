/** scripts/generate-pki.py: development certificates created file by file, by runs that may be
    cut at any step. Files appear and disappear atomically; openssl is an abstract issuer. */
module Pki {
  import opened Wrappers

  datatype Ext = Key | Crt | Csr | Cnf

  /** NAME.key, NAME.crt, NAME.csr or NAME.ext in the PKI directory. */
  datatype File = File(stem: string, ext: Ext)

  datatype Content =
    | PrivateKey(id: nat)
    | Request(key: nat, commonName: string)
    | Extensions(usage: string, san: string)
    | Root(key: nat)
    | Leaf(key: nat, commonName: string, usage: string, san: string, issuer: nat)

  /** What a path holds; Other exists but is no regular file. */
  datatype Entry = Regular(content: Content) | Other

  type Dir = map<File, Entry>

  datatype Identity = Identity(name: string, commonName: string, usage: string, san: string)

  const IDENTITIES: seq<Identity> := [
    Identity("keycloak", "keycloak", "serverAuth", "DNS:keycloak,DNS:localhost,IP:127.0.0.1"),
    Identity("kong-proxy", "localhost", "serverAuth", "DNS:localhost,IP:127.0.0.1"),
    Identity("ui", "localhost", "serverAuth", "DNS:localhost,IP:127.0.0.1"),
    Identity("pop-verifier", "pop-verifier", "serverAuth", "DNS:pop-verifier,DNS:localhost,IP:127.0.0.1"),
    Identity("route-a", "kong-fapi-mtls", "clientAuth", ""),
    Identity("route-b", "kong-fapi-pkj-mtls", "clientAuth", ""),
    Identity("third-party-backend", "third-party-backend", "serverAuth", "DNS:third-party-backend"),
    Identity("third-party-backend-hop", "third-party-backend-hop", "clientAuth", ""),
    Identity("third-party-metadata", "third-party-metadata", "clientAuth", ""),
    Identity("api-gateway", "kong-api", "serverAuth", "DNS:kong-api,DNS:localhost,IP:127.0.0.1"),
    Identity("api-introspection", "api-gateway-introspection", "clientAuth", ""),
    Identity("api-upstream", "api-gateway-upstream", "clientAuth", "")
  ]

  const COUNT: nat := 12

  function Stem(i: nat): string
    requires i < COUNT
  {
    IDENTITIES[i].name
  }

  const CA := "ca"

  /** No two identities share a path, and none shares one with the CA. */
  lemma {:induction false} StemsDistinct()
    ensures forall i, j :: 0 <= i < j < COUNT ==> Stem(i) != Stem(j)
    ensures forall i :: 0 <= i < COUNT ==> Stem(i) != CA
  {
    assert |Stem(0)| == 8 && |Stem(1)| == 10 && |Stem(2)| == 2 && |Stem(3)| == 12 && |Stem(4)| == 7 && |Stem(5)| == 7;
    assert |Stem(6)| == 19 && |Stem(7)| == 23 && |Stem(8)| == 20 && |Stem(9)| == 11 && |Stem(10)| == 17;
    assert |Stem(11)| == 12;
    assert Stem(2)[0] == 'u' && CA[0] == 'c' && |CA| == 2 && Stem(3)[0] == 'p' && Stem(11)[0] == 'a';
    assert Stem(4)[6] == 'a' && Stem(5)[6] == 'b';
  }

  /* ---------------- what exists ---------------- */

  predicate IsFile(dir: Dir, f: File) { f in dir && dir[f].Regular? }

  predicate CaAbsent(dir: Dir) { File(CA, Key) !in dir && File(CA, Crt) !in dir }

  predicate CaComplete(dir: Dir) { IsFile(dir, File(CA, Key)) && IsFile(dir, File(CA, Crt)) }

  predicate Absent(dir: Dir, i: nat)
    requires i < COUNT
  {
    File(Stem(i), Key) !in dir && File(Stem(i), Crt) !in dir && File(Stem(i), Csr) !in dir && File(Stem(i), Cnf) !in dir
  }

  predicate Complete(dir: Dir, i: nat)
    requires i < COUNT
  {
    && IsFile(dir, File(Stem(i), Crt)) && IsFile(dir, File(Stem(i), Key))
    && File(Stem(i), Csr) !in dir && File(Stem(i), Cnf) !in dir
  }

  predicate Partial(dir: Dir, i: nat)
    requires i < COUNT
  {
    !Absent(dir, i) && !Complete(dir, i)
  }

  /** The CA key openssl signs with: certificate and key have to belong together. */
  function Signer(dir: Dir): Option<nat> {
    if !CaComplete(dir) then None
    else
      match (dir[File(CA, Key)].content, dir[File(CA, Crt)].content)
      case (PrivateKey(k), Root(r)) => if k == r then Some(k) else None
      case _ => None
  }

  /* ---------------- the steps of a run ---------------- */

  datatype Op = Write(file: File, content: Content) | Remove(file: File)

  function Do(dir: Dir, op: Op): Dir {
    match op
    case Write(file, content) => dir[file := Regular(content)]
    case Remove(file) => map f | f in dir && f != file :: dir[f]
  }

  function Apply(dir: Dir, ops: seq<Op>): Dir {
    if ops == [] then dir else Do(Apply(dir, ops[..|ops| - 1]), ops[|ops| - 1])
  }

  /** openssl req -x509 writes the key and then the certificate. */
  function CaOps(dir: Dir, caKey: nat): seq<Op> {
    if CaAbsent(dir) then [Write(File(CA, Key), PrivateKey(caKey)), Write(File(CA, Crt), Root(caKey))] else []
  }

  /** key, request, extensions */
  function PrepareOps(i: nat, key: nat): seq<Op>
    requires i < COUNT
  {
    var id := IDENTITIES[i];
    [Write(File(id.name, Key), PrivateKey(key)),
     Write(File(id.name, Csr), Request(key, id.commonName)),
     Write(File(id.name, Cnf), Extensions(id.usage, id.san))]
  }

  /** The certificate, and the two intermediate files away again. */
  function SignOps(i: nat, key: nat, ca: nat): seq<Op>
    requires i < COUNT
  {
    var id := IDENTITIES[i];
    [Write(File(id.name, Crt), Leaf(key, id.commonName, id.usage, id.san, ca)),
     Remove(File(id.name, Csr)),
     Remove(File(id.name, Cnf))]
  }

  /** Without a CA to sign with openssl fails at the certificate. */
  function IssueOps(i: nat, key: nat, signer: Option<nat>): seq<Op>
    requires i < COUNT
  {
    if signer.None? then PrepareOps(i, key) else PrepareOps(i, key) + SignOps(i, key, signer.value)
  }

  /** What the calls of issue from identity i on do to a directory, uncut: each looks at its own
      four files and skips, refuses or issues. */
  function IdentityOps(dir: Dir, i: nat, keys: nat -> nat, signer: Option<nat>): seq<Op>
    requires i <= COUNT
    decreases COUNT - i
  {
    if i == COUNT || Partial(dir, i) then []
    else if Complete(dir, i) then IdentityOps(dir, i + 1, keys, signer)
    else if signer.None? then IssueOps(i, keys(i), signer)
    else IssueOps(i, keys(i), signer) + IdentityOps(dir, i + 1, keys, signer)
  }

  /** Whether those calls all return. */
  predicate IdentitiesPass(dir: Dir, i: nat, signer: Option<nat>)
    requires i <= COUNT
  {
    forall j :: i <= j < COUNT ==> Complete(dir, j) || (Absent(dir, j) && signer.Some?)
  }

  predicate CaPasses(dir: Dir) { CaAbsent(dir) || CaComplete(dir) }

  function SignerAfterCa(dir: Dir, caKey: nat): Option<nat> {
    if CaAbsent(dir) then Some(caKey) else Signer(dir)
  }

  /** Every file step of an uncut run on a directory. */
  function RunOps(dir: Dir, caKey: nat, keys: nat -> nat): seq<Op> {
    if !CaPasses(dir) then []
    else CaOps(dir, caKey) + IdentityOps(dir, 0, keys, SignerAfterCa(dir, caKey))
  }

  /** Whether an uncut run exits with success. */
  predicate RunPasses(dir: Dir, caKey: nat) {
    CaPasses(dir) && IdentitiesPass(dir, 0, SignerAfterCa(dir, caKey))
  }

  /* ---------------- the run as written ---------------- */

  datatype Outcome = Returned | Raised | Killed

  class Directory {
    var files: Dir

    /** File steps left before the run is killed. */
    var fuel: nat

    constructor ()
      ensures files == map[] && fuel == 0
    {
      files, fuel := map[], 0;
    }

    /** One file step, unless the run is killed first. */
    method Step(op: Op) returns (alive: bool)
      modifies this
      ensures alive <==> old(fuel) > 0
      ensures alive ==> files == Do(old(files), op) && fuel == old(fuel) - 1
      ensures !alive ==> files == old(files) && fuel == old(fuel)
    {
      alive := fuel > 0;
      if alive {
        match op {
          case Write(file, content) => files := files[file := Regular(content)];
          case Remove(file) => files := map f | f in files && f != file :: files[f];
        }
        fuel := fuel - 1;
      }
    }

    /** ensure_ca */
    method EnsureCa(caKey: nat) returns (outcome: Outcome)
      modifies this
      ensures Ran(old(files), old(fuel), CaOps(old(files), caKey), files, fuel)
      ensures outcome == if !CaPasses(old(files)) then Raised
                         else if old(fuel) < |CaOps(old(files), caKey)| then Killed else Returned
    {
      if File(CA, Key) in files || File(CA, Crt) in files {
        outcome := if IsFile(files, File(CA, Key)) && IsFile(files, File(CA, Crt)) then Returned else Raised;
        return;
      }
      ghost var start, ops := files, CaOps(files, caKey);
      RanOne(start, ops, 0);
      RanOne(start, ops, 1);
      assert ops[..2] == ops;
      var alive := Step(Write(File(CA, Key), PrivateKey(caKey)));
      if !alive {
        return Killed;
      }
      alive := Step(Write(File(CA, Crt), Root(caKey)));
      if !alive {
        return Killed;
      }
      return Returned;
    }

    /** The first half of issue: what openssl needs to sign a request. */
    method Prepare(i: nat, key: nat) returns (alive: bool)
      requires i < COUNT
      modifies this
      ensures Ran(old(files), old(fuel), PrepareOps(i, key), files, fuel) && (alive <==> old(fuel) >= 3)
    {
      var id := IDENTITIES[i];
      ghost var start, budget, ops := files, fuel, PrepareOps(i, key);
      hide Apply, Do, Ran;
      NoneYet(start, ops);
      alive := Step(Write(File(id.name, Key), PrivateKey(key)));
      OneMore(start, budget, ops, 0);
      if !alive {
        return;
      }
      alive := Step(Write(File(id.name, Csr), Request(key, id.commonName)));
      OneMore(start, budget, ops, 1);
      if !alive {
        return;
      }
      alive := Step(Write(File(id.name, Cnf), Extensions(id.usage, id.san)));
      OneMore(start, budget, ops, 2);
    }

    /** The second half: the signature, and tidying up. */
    method Sign(i: nat, key: nat, ca: nat) returns (alive: bool)
      requires i < COUNT
      modifies this
      ensures Ran(old(files), old(fuel), SignOps(i, key, ca), files, fuel) && (alive <==> old(fuel) >= 3)
    {
      var id := IDENTITIES[i];
      ghost var start, budget, ops := files, fuel, SignOps(i, key, ca);
      hide Apply, Do, Ran;
      NoneYet(start, ops);
      alive := Step(Write(File(id.name, Crt), Leaf(key, id.commonName, id.usage, id.san, ca)));
      OneMore(start, budget, ops, 0);
      if !alive {
        return;
      }
      alive := Step(Remove(File(id.name, Csr)));
      OneMore(start, budget, ops, 1);
      if !alive {
        return;
      }
      alive := Step(Remove(File(id.name, Cnf)));
      OneMore(start, budget, ops, 2);
    }

    /** Both halves; openssl cannot sign when certificate and key of the CA do not fit. */
    method Make(i: nat, key: nat) returns (outcome: Outcome)
      requires i < COUNT
      modifies this
      ensures Ran(old(files), old(fuel), IssueOps(i, key, Signer(old(files))), files, fuel)
      ensures outcome == if old(fuel) < |IssueOps(i, key, Signer(old(files)))| then Killed
                         else if Signer(old(files)).None? then Raised else Returned
    {
      ghost var start, budget, signer := files, fuel, Signer(files);
      ghost var prepare, sign := PrepareOps(i, key), if signer.None? then [] else SignOps(i, key, signer.value);
      IssueOpsSplit(i, key, signer);
      NoneYet(start, prepare);
      assert prepare[..0] == [];
      hide Signer, Apply, IssueOps, PrepareOps, SignOps, Do, Ran;
      var alive := Prepare(i, key);
      Extend(start, budget, [], prepare, sign, files, fuel);
      if !alive {
        return Killed;
      }
      SignerStays(start, i, prepare);
      if Signer(files).None? {
        return Raised;
      }
      alive := Sign(i, key, Signer(files).value);
      Extend(start, budget, prepare, sign, [], files, fuel);
      return if alive then Returned else Killed;
    }

    /** issue */
    method Issue(i: nat, key: nat) returns (outcome: Outcome)
      requires i < COUNT
      modifies this
      ensures var ops := if Absent(old(files), i) then IssueOps(i, key, Signer(old(files))) else [];
        && Ran(old(files), old(fuel), ops, files, fuel)
        && outcome == if Partial(old(files), i) then Raised
                      else if old(fuel) < |ops| then Killed
                      else if Absent(old(files), i) && Signer(old(files)).None? then Raised else Returned
    {
      NeverBoth(files, i);
      RanNothing(files, fuel);
      hide Signer, Absent, Complete, IssueOps, Ran;
      if !Absent(files, i) {
        outcome := if Complete(files, i) then Returned else Raised;
      } else {
        outcome := Make(i, key);
      }
    }

    /** The loop of main over the identities; start tells which of them existed before the run. */
    method IssueAll(keys: nat -> nat, ghost start: Dir) returns (outcome: Outcome)
      requires forall j :: 0 <= j < COUNT ==> SameFiles(start, files, Stem(j))
      modifies this
      ensures Ran(old(files), old(fuel), IdentityOps(start, 0, keys, Signer(old(files))), files, fuel)
      ensures outcome == if old(fuel) < |IdentityOps(start, 0, keys, Signer(old(files)))| then Killed
                         else if IdentitiesPass(start, 0, Signer(old(files))) then Returned else Raised
    {
      hide Apply, Complete, Absent, Signer, IssueOps, IdentityOps, Ran, SameFiles, Stem;
      ghost var first, budget, signer, done := files, fuel, Signer(files), [];
      NoneYet(first, []);
      var i := 0;
      while i < COUNT
        invariant 0 <= i <= COUNT && |done| <= budget
        invariant files == Apply(first, done) && fuel == budget - |done|
        invariant IdentityOps(start, 0, keys, signer) == done + IdentityOps(start, i, keys, signer)
        invariant Signer(files) == signer
        invariant forall j :: i <= j < COUNT ==> SameFiles(start, files, Stem(j))
        invariant forall j :: 0 <= j < i ==> Complete(start, j) || (Absent(start, j) && signer.Some?)
      {
        ghost var ops := OpsAt(start, i, keys, signer);
        SameStates(start, files, i);
        NeverBoth(start, i);
        IssueLeaves(start, files, i, keys, signer);
        outcome := Issue(i, keys(i));
        Turn(start, first, budget, done, i, keys, signer, files, fuel);
        if outcome != Returned {
          return;
        }
        ApplyConcat(first, done, ops);
        done := done + ops;
        i := i + 1;
      }
      NoMoreOps(start, keys, signer);
      RanNothing(files, fuel);
      Extend(first, budget, done, [], [], files, fuel);
      assert done + [] + [] == done + IdentityOps(start, COUNT, keys, signer);
      outcome := Returned;
    }

    /** main, on an existing directory */
    method Generate(caKey: nat, keys: nat -> nat) returns (outcome: Outcome)
      modifies this
      ensures Ran(old(files), old(fuel), RunOps(old(files), caKey, keys), files, fuel)
      ensures outcome == if old(fuel) < |RunOps(old(files), caKey, keys)| then Killed
                         else if RunPasses(old(files), caKey) then Returned else Raised
    {
      hide Apply, Complete, Absent, Signer, CaOps, IdentityOps, Ran, SameFiles, CaAbsent, CaComplete, IdentitiesPass;
      ghost var start, budget, signer, ca := files, fuel, SignerAfterCa(files, caKey), CaOps(files, caKey);
      ghost var ids := IdentityOps(start, 0, keys, signer);
      CaDecides(start, caKey, keys);
      outcome := EnsureCa(caKey);
      Extend(start, budget, [], ca, if CaPasses(start) then ids else [], files, fuel);
      if outcome != Returned {
        return;
      }
      CaLeaves(start, caKey);
      assert [] + ca == ca;
      outcome := IssueAll(keys, start);
      Extend(start, budget, ca, ids, [], files, fuel);
      assert ca + ids + [] == ca + ids == [] + ca + ids;
    }
  }

  lemma {:induction false} IssueOpsAre(i: nat, key: nat, signer: Option<nat>)
    requires i < COUNT
    ensures var id, ops := IDENTITIES[i], IssueOps(i, key, signer);
      && |ops| == (if signer.Some? then 6 else 3) && (forall k :: 0 <= k < |ops| ==> ops[k].file.stem == Stem(i))
      && ops[0] == Write(File(id.name, Key), PrivateKey(key))
      && ops[1] == Write(File(id.name, Csr), Request(key, id.commonName))
      && ops[2] == Write(File(id.name, Cnf), Extensions(id.usage, id.san))
      && (signer.Some? ==>
            && ops[3] == Write(File(id.name, Crt), Leaf(key, id.commonName, id.usage, id.san, signer.value))
            && ops[4] == Remove(File(id.name, Csr)) && ops[5] == Remove(File(id.name, Cnf)))
  {
  }

  lemma {:induction false} NoneYet(before: Dir, ops: seq<Op>)
    ensures Apply(before, ops[..0]) == before
  {
  }

  lemma {:induction false} IssueOpsSplit(i: nat, key: nat, signer: Option<nat>)
    requires i < COUNT
    ensures var prepare, sign := PrepareOps(i, key), if signer.None? then [] else SignOps(i, key, signer.value);
      && IssueOps(i, key, signer) == [] + prepare + sign == prepare + sign + []
      && [] + prepare == prepare && |prepare| == 3 && |sign| == (if signer.None? then 0 else 3)
      && forall k :: 0 <= k < |prepare| ==> prepare[k].file.stem == Stem(i)
  {
    assert [] + PrepareOps(i, key) == PrepareOps(i, key);
  }

  /** A step taken at k reaches k + 1; a step not taken ends the run there. */
  lemma {:induction false} OneMore(before: Dir, budget: nat, ops: seq<Op>, k: nat)
    requires k < |ops|
    ensures Apply(before, ops[..k + 1]) == Do(Apply(before, ops[..k]), ops[k])
    ensures k == budget ==> Ran(before, budget, ops, Apply(before, ops[..k]), 0)
    ensures k + 1 == |ops| <= budget ==> Ran(before, budget, ops, Apply(before, ops[..k + 1]), budget - k - 1)
  {
    RanOne(before, ops, k);
    assert ops[..|ops|] == ops;
  }

  /** A directory and a budget after as many of the steps as the budget allows. */
  predicate Ran(before: Dir, budget: nat, ops: seq<Op>, after: Dir, left: nat) {
    var n := if budget < |ops| then budget else |ops|;
    after == Apply(before, ops[..n]) && left == budget - n
  }

  lemma {:induction false} RanOne(before: Dir, ops: seq<Op>, k: nat)
    requires k < |ops|
    ensures Apply(before, ops[..k + 1]) == Do(Apply(before, ops[..k]), ops[k])
  {
    assert ops[..k + 1][..k] == ops[..k];
  }

  /** Steps on an identity's files do not touch the CA. */
  lemma {:induction false} SignerStays(dir: Dir, i: nat, ops: seq<Op>)
    requires i < COUNT && forall k :: 0 <= k < |ops| ==> ops[k].file.stem == Stem(i)
    ensures Signer(Apply(dir, ops)) == Signer(dir)
  {
    StemsDistinct();
    OtherStemsStay(dir, ops, CA);
  }

  lemma {:induction false} OtherStemsStay(dir: Dir, ops: seq<Op>, stem: string)
    requires forall k :: 0 <= k < |ops| ==> ops[k].file.stem != stem
    ensures forall ext :: File(stem, ext) in Apply(dir, ops) <==> File(stem, ext) in dir
    ensures forall ext :: File(stem, ext) in dir ==> Apply(dir, ops)[File(stem, ext)] == dir[File(stem, ext)]
  {
    if ops != [] {
      OtherStemsStay(dir, ops[..|ops| - 1], stem);
    }
  }

  /** The files of one owner are the same in both directories. */
  predicate SameFiles(a: Dir, b: Dir, stem: string) {
    && (forall ext: Ext :: File(stem, ext) in a <==> File(stem, ext) in b)
    && (forall ext: Ext :: File(stem, ext) in a && File(stem, ext) in b ==> a[File(stem, ext)] == b[File(stem, ext)])
  }

  lemma {:induction false} ApplyConcat(dir: Dir, xs: seq<Op>, ys: seq<Op>)
    ensures Apply(dir, xs + ys) == Apply(Apply(dir, xs), ys)
  {
    if ys == [] {
      assert xs + ys == xs;
    } else {
      var n := |ys| - 1;
      assert (xs + ys)[..|xs| + n] == xs + ys[..n];
      ApplyConcat(dir, xs, ys[..n]);
    }
  }

  /** Steps run from where earlier steps left off are steps of the whole list. */
  lemma {:induction false} Extend(start: Dir, budget: nat, done: seq<Op>, ops: seq<Op>, rest: seq<Op>, after: Dir,
                                  left: nat)
    requires |done| <= budget && Ran(Apply(start, done), budget - |done|, ops, after, left)
    ensures budget < |done + ops| || rest == [] ==> Ran(start, budget, done + ops + rest, after, left)
    ensures budget >= |done + ops| ==> after == Apply(start, done + ops) && left == budget - |done + ops|
  {
    var n := if budget - |done| < |ops| then budget - |done| else |ops|;
    var all := done + ops + rest;
    ApplyConcat(start, done, ops[..n]);
    assert all[..|done| + n] == done + ops[..n];
    assert ops[..|ops|] == ops;
    assert rest == [] ==> all == done + ops;
  }

  lemma {:induction false} RanNothing(dir: Dir, budget: nat)
    ensures Ran(dir, budget, [], dir, budget)
  {
  }

  lemma {:induction false} CaDecides(dir: Dir, caKey: nat, keys: nat -> nat)
    ensures Apply(dir, []) == dir
    ensures RunOps(dir, caKey, keys) ==
      [] + CaOps(dir, caKey) + if CaPasses(dir) then IdentityOps(dir, 0, keys, SignerAfterCa(dir, caKey)) else []
    ensures !CaPasses(dir) ==> CaOps(dir, caKey) == []
  {
    hide IdentityOps;
    assert [] + CaOps(dir, caKey) == CaOps(dir, caKey);
  }

  lemma {:induction false} CaLeaves(dir: Dir, caKey: nat)
    requires CaPasses(dir)
    ensures Signer(Apply(dir, CaOps(dir, caKey))) == SignerAfterCa(dir, caKey)
    ensures forall j :: 0 <= j < COUNT ==> SameFiles(dir, Apply(dir, CaOps(dir, caKey)), Stem(j))
  {
    StemsDistinct();
    hide Stem;
    var ops := CaOps(dir, caKey);
    forall j | 0 <= j < COUNT ensures SameFiles(dir, Apply(dir, ops), Stem(j)) {
      OtherStemsStay(dir, ops, Stem(j));
    }
    if CaAbsent(dir) {
      assert ops[..1] == [ops[0]] && ops[..1][..0] == [];
      RanOne(dir, ops, 0);
      RanOne(dir, ops, 1);
      assert ops[..2] == ops;
    }
  }

  lemma {:induction false} SameStates(a: Dir, b: Dir, i: nat)
    requires i < COUNT && SameFiles(a, b, Stem(i))
    ensures (Absent(a, i) <==> Absent(b, i)) && (Complete(a, i) <==> Complete(b, i))
  {
    hide Stem;
  }

  /** The steps of one call of issue. */
  function OpsAt(dir: Dir, i: nat, keys: nat -> nat, signer: Option<nat>): seq<Op>
    requires i < COUNT
  {
    if Absent(dir, i) then IssueOps(i, keys(i), signer) else []
  }

  /** The call raises. */
  predicate Stops(dir: Dir, i: nat, signer: Option<nat>)
    requires i < COUNT
  {
    Partial(dir, i) || (Absent(dir, i) && signer.None?)
  }

  lemma {:induction false} IdentityOpsStep(dir: Dir, i: nat, keys: nat -> nat, signer: Option<nat>)
    requires i < COUNT
    ensures IdentityOps(dir, i, keys, signer) ==
      OpsAt(dir, i, keys, signer) + if Stops(dir, i, signer) then [] else IdentityOps(dir, i + 1, keys, signer)
  {
    hide IssueOps, Stem;
    NeverBoth(dir, i);
  }

  /** One turn of the loop: where the steps of the call leave the whole run. */
  lemma {:induction false} Turn(start: Dir, first: Dir, budget: nat, done: seq<Op>, i: nat, keys: nat -> nat,
                                signer: Option<nat>,
                                after: Dir, left: nat)
    requires i < COUNT && |done| <= budget
    requires IdentityOps(start, 0, keys, signer) == done + IdentityOps(start, i, keys, signer)
    requires Ran(Apply(first, done), budget - |done|, OpsAt(start, i, keys, signer), after, left)
    ensures var all, ops := IdentityOps(start, 0, keys, signer), OpsAt(start, i, keys, signer);
      && (budget < |done + ops| || Stops(start, i, signer) ==> Ran(first, budget, all, after, left))
      && (budget < |done + ops| ==> budget < |all|)
      && (if Stops(start, i, signer) then all == done + ops
          else all == done + ops + IdentityOps(start, i + 1, keys, signer))
      && (budget >= |done + ops| ==> after == Apply(first, done + ops) && left == budget - |done + ops|)
  {
    hide IdentityOps, OpsAt, Stops, Ran, Apply;
    IdentityOpsStep(start, i, keys, signer);
    var ops := OpsAt(start, i, keys, signer);
    var rest := if Stops(start, i, signer) then [] else IdentityOps(start, i + 1, keys, signer);
    assert done + (ops + rest) == done + ops + rest;
    Extend(first, budget, done, ops, rest, after, left);
  }

  lemma {:induction false} NeverBoth(dir: Dir, i: nat)
    requires i < COUNT
    ensures !(Absent(dir, i) && Complete(dir, i))
  {
    hide Stem;
  }

  lemma {:induction false} NoMoreOps(dir: Dir, keys: nat -> nat, signer: Option<nat>)
    ensures IdentityOps(dir, COUNT, keys, signer) == []
  {
  }

  /** Issuing one identity keeps the CA and the files of the identities still to come. */
  lemma {:induction false} IssueLeaves(start: Dir, dir: Dir, i: nat, keys: nat -> nat, signer: Option<nat>)
    requires i < COUNT && Signer(dir) == signer
    requires forall j :: i <= j < COUNT ==> SameFiles(start, dir, Stem(j))
    ensures var ops := OpsAt(start, i, keys, signer);
      && Signer(Apply(dir, ops)) == signer
      && forall j :: i < j < COUNT ==> SameFiles(start, Apply(dir, ops), Stem(j))
  {
    var ops := OpsAt(start, i, keys, signer);
    IssueOpsAre(i, keys(i), signer);
    StemsDistinct();
    hide Signer, IssueOps, Stem, Absent;
    SignerStays(dir, i, ops);
    forall j | i < j < COUNT ensures SameFiles(start, Apply(dir, ops), Stem(j)) {
      OtherStemsStay(dir, ops, Stem(j));
    }
  }
}
