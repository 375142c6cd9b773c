/** Idempotency keys: who can submit under which key. */
module Keys {
  import opened Types

  /** A BenchmarkJob is named by its namespace and its name. */
  datatype CrId = CrId(namespace: string, name: string)

  /** A namespace is a non-empty label, and labels have no '/'. */
  predicate ValidId(id: CrId)
  {
    id.namespace != "" && '/' !in id.namespace
  }

  /** Who posts. `Explicit` is any client that sends a key of its own choice, or an empty one. */
  datatype Client =
    | Operator(id: CrId)
    | Provider(name: string)      // a cluster-scoped resource: its namespace is empty
    | Anonymous                   // no idempotency_key in the request
    | Explicit(key: string)

  function OperatorKey(id: CrId): string
  {
    id.namespace + "/" + id.name
  }

  function ProviderKey(name: string): string
  {
    "" + "/" + name
  }

  function Digit(d: nat): char
    requires d < 10
  {
    "0123456789"[d]
  }

  /** A positive batch size as f-string formatting writes it. */
  function Decimal(n: nat): (s: string)
    ensures s != "" && (forall i | 0 <= i < |s| :: s[i] in "0123456789")
  {
    if n < 10 then [Digit(n)] else Decimal(n / 10) + [Digit(n % 10)]
  }

  /** What is hashed when a request brings no key; the API admits batch sizes above 0 only. */
  function PreImage(spec: Spec): string
  {
    spec.model + ":" + spec.workload + ":" + Decimal(if spec.batch > 0 then spec.batch else 0)
  }

  predicate HexDigest(s: string)
  {
    |s| == 64 && forall i | 0 <= i < 64 :: s[i] in "0123456789abcdef"
  }

  /** The key a request is stored under: an absent or empty key is replaced by the digest. */
  function KeyOf(digest: string -> string, client: Client, spec: Spec): string
  {
    match client
    case Operator(id) => OperatorKey(id)
    case Provider(name) => ProviderKey(name)
    case Anonymous => digest(PreImage(spec))
    case Explicit(key) => if key == "" then digest(PreImage(spec)) else key
  }

  // ---- what the keys look like ----

  /** The key of a BenchmarkJob is its namespace and its name with one '/' between them. */
  lemma OperatorKeyShape(id: CrId)
    ensures var k := OperatorKey(id); var n := |id.namespace|;
      && |k| == n + 1 + |id.name|
      && k[..n] == id.namespace && k[n] == '/' && k[n + 1..] == id.name
  {
  }

  /** That of a provider's resource is its name after a '/', so the name can be read back. */
  lemma ProviderKeysInjective(m: string, n: string)
    ensures |ProviderKey(n)| == 1 + |n| && ProviderKey(n)[0] == '/' && ProviderKey(n)[1..] == n
    ensures ProviderKey(m) == ProviderKey(n) <==> m == n
  {
    assert ProviderKey(m)[1..] == m && ProviderKey(n)[1..] == n;
  }

  /** The number that a string of digits stands for. */
  function Value(s: string): int
  {
    if s == "" then 0 else 10 * Value(s[..|s| - 1]) + (s[|s| - 1] as int - '0' as int)
  }

  lemma DigitValue(d: nat)
    requires d < 10
    ensures Digit(d) as int - '0' as int == d
  {
    var ds := "0123456789";
    assert ds[0] == '0' && ds[1] == '1' && ds[2] == '2' && ds[3] == '3' && ds[4] == '4';
    assert ds[5] == '5' && ds[6] == '6' && ds[7] == '7' && ds[8] == '8' && ds[9] == '9';
  }

  /** The digits of a batch size read back as the batch size, and it has no leading zero. */
  lemma {:induction false} DecimalReads(n: nat)
    ensures Value(Decimal(n)) == n && (n > 0 ==> Decimal(n)[0] != '0')
  {
    var s := Decimal(n);
    DigitValue(n % 10);
    if n < 10 {
      assert s[..0] == "";
    } else {
      DecimalReads(n / 10);
      assert s[..|s| - 1] == Decimal(n / 10) && s[0] == Decimal(n / 10)[0];
    }
  }

  /** What is hashed is the model, the workload and the digits of the batch size, with ':' between. */
  lemma PreImageShape(spec: Spec) returns (digits: string)
    requires spec.batch > 0
    ensures PreImage(spec) == spec.model + ":" + spec.workload + ":" + digits
    ensures digits != "" && (forall i | 0 <= i < |digits| :: digits[i] in "0123456789") && Value(digits) == spec.batch
  {
    digits := Decimal(spec.batch);
    DecimalReads(spec.batch);
  }

  // ---- operator keys ----

  /** A separator that the left part does not contain can be found again. */
  lemma FirstSeparator(sep: char, a: string, b: string, c: string, d: string)
    requires sep !in a && sep !in c && a + [sep] + b == c + [sep] + d
    ensures a == c && b == d
  {
    var s, t := a + [sep] + b, c + [sep] + d;
    assert forall i | 0 <= i < |a| :: s[i] == a[i];
    assert forall i | 0 <= i < |c| :: t[i] == c[i];
    assert s[|a|] == sep && t[|c|] == sep;
    assert |a| == |c|;
    assert a == s[..|a|] && c == t[..|c|];
    assert b == s[|a| + 1..] && d == t[|c| + 1..];
  }

  /** So can one that the right part does not contain. */
  lemma LastSeparator(sep: char, a: string, b: string, c: string, d: string)
    requires sep !in b && sep !in d && a + [sep] + b == c + [sep] + d
    ensures a == c && b == d
  {
    var s, t := a + [sep] + b, c + [sep] + d;
    assert forall i | |a| < i < |s| :: s[i] == b[i - |a| - 1];
    assert forall i | |c| < i < |t| :: t[i] == d[i - |c| - 1];
    assert s[|a|] == sep && t[|c|] == sep;
    assert |a| == |c|;
    assert a == s[..|a|] && c == t[..|c|];
    assert b == s[|a| + 1..] && d == t[|c| + 1..];
  }

  /** So can the only one. */
  lemma OnlySeparator(sep: char, a: string, b: string, c: string, d: string)
    requires sep !in c && sep !in d && a + [sep] + b == c + [sep] + d
    ensures a == c && b == d
  {
    var s, t := a + [sep] + b, c + [sep] + d;
    assert forall i | 0 <= i < |c| :: t[i] == c[i];
    assert forall i | |c| < i < |t| :: t[i] == d[i - |c| - 1];
    assert s[|a|] == sep;
    assert |a| == |c|;
    assert a == s[..|a|] && c == t[..|c|];
    assert b == s[|a| + 1..] && d == t[|c| + 1..];
  }

  /** Two BenchmarkJobs never share a key. */
  lemma OperatorKeysInjective(i: CrId, j: CrId)
    requires ValidId(i) && ValidId(j)
    ensures OperatorKey(i) == OperatorKey(j) <==> i == j
  {
    if OperatorKey(i) == OperatorKey(j) { FirstSeparator('/', i.namespace, i.name, j.namespace, j.name); }
  }

  /** The three key spaces are disjoint: only an explicit key can hit the key of a BenchmarkJob. */
  lemma KeySpacesDisjoint(digest: string -> string, id: CrId, client: Client, spec: Spec)
    requires ValidId(id) && HexDigest(digest(PreImage(spec)))
    requires KeyOf(digest, client, spec) == OperatorKey(id)
    ensures match client {
      case Operator(other) => ValidId(other) ==> other == id
      case Provider(_) => false
      case Anonymous => false
      case Explicit(key) => key == OperatorKey(id)
    }
  {
    var k := OperatorKey(id);
    assert k[|id.namespace|] == '/' && k[0] == id.namespace[0];
    match client
    case Operator(other) => if ValidId(other) { OperatorKeysInjective(id, other); }
    case Provider(name) => ProviderSlash(name);
    case Anonymous => DigestHasNoSlash(digest(PreImage(spec)));
    case Explicit(key) => if key == "" { DigestHasNoSlash(digest(PreImage(spec))); }
  }

  lemma ProviderSlash(name: string)
    ensures ProviderKey(name)[0] == '/'
  {
  }

  lemma DigestHasNoSlash(s: string)
    requires HexDigest(s)
    ensures '/' !in s
  {
    forall i | 0 <= i < |s| ensures s[i] != '/' { assert s[i] in "0123456789abcdef"; }
  }

  lemma ProviderDefaultDisjoint(digest: string -> string, name: string, spec: Spec)
    requires HexDigest(digest(PreImage(spec)))
    ensures KeyOf(digest, Provider(name), spec) != KeyOf(digest, Anonymous, spec)
  {
    DigestHasNoSlash(digest(PreImage(spec)));
    assert ProviderKey(name)[0] == '/';
  }

  // ---- default keys ----

  lemma {:induction false} DecimalInjective(m: nat, n: nat)
    requires Decimal(m) == Decimal(n)
    ensures m == n
    decreases m + n
  {
    var s, t := Decimal(m), Decimal(n);
    assert s[|s| - 1] == Digit(m % 10) && t[|t| - 1] == Digit(n % 10);
    DigitInjective(m % 10, n % 10);
    assert (m >= 10 <==> |s| >= 2) && (n >= 10 <==> |t| >= 2);
    if m >= 10 {
      assert Decimal(m / 10) == s[..|s| - 1] == t[..|t| - 1] == Decimal(n / 10);
      DecimalInjective(m / 10, n / 10);
    }
  }

  lemma DigitInjective(a: nat, b: nat)
    requires a < 10 && b < 10 && Digit(a) == Digit(b)
    ensures a == b
  {
    var ds := "0123456789";
    assert ds[0] == '0' && ds[1] == '1' && ds[2] == '2' && ds[3] == '3' && ds[4] == '4';
    assert ds[5] == '5' && ds[6] == '6' && ds[7] == '7' && ds[8] == '8' && ds[9] == '9';
  }

  lemma PreImageSplits(r: Spec, t: Spec)
    requires r.batch > 0 && t.batch > 0 && PreImage(r) == PreImage(t)
    ensures r.batch == t.batch && r.model + ":" + r.workload == t.model + ":" + t.workload
  {
    DecimalHasNoColon(r.batch);
    DecimalHasNoColon(t.batch);
    LastSeparator(':', r.model + ":" + r.workload, Decimal(r.batch), t.model + ":" + t.workload, Decimal(t.batch));
    DecimalInjective(r.batch, t.batch);
  }

  lemma DecimalHasNoColon(n: nat)
    ensures ':' !in Decimal(n)
  {
    var s := Decimal(n);
    forall i | 0 <= i < |s| ensures s[i] != ':' { assert s[i] in "0123456789"; }
  }

  /** Two submissions whose models have no ':' are hashed apart. */
  lemma DefaultKeysParse(r: Spec, t: Spec)
    requires r.batch > 0 && t.batch > 0
    requires ':' !in r.model && ':' !in t.model
    ensures PreImage(r) == PreImage(t) <==> r == t
  {
    if PreImage(r) == PreImage(t) {
      PreImageSplits(r, t);
      FirstSeparator(':', r.model, r.workload, t.model, t.workload);
    }
  }

  /** The pre-image "model:workload:batch" of a submission belongs to it alone exactly when neither
      the model nor the workload has a ':'. */
  lemma DefaultKeyUnique(r: Spec)
    requires r.batch > 0
    ensures (forall t: Spec | t.batch > 0 && PreImage(t) == PreImage(r) :: t == r)
      <==> ':' !in r.model && ':' !in r.workload
  {
    if ':' !in r.model && ':' !in r.workload {
      forall t: Spec | t.batch > 0 && PreImage(t) == PreImage(r) ensures t == r {
        PreImageSplits(t, r);
        OnlySeparator(':', t.model, t.workload, r.model, r.workload);
      }
    } else if ':' in r.model {
      var i :| 0 <= i < |r.model| && r.model[i] == ':';
      var t := Spec(r.model[..i], r.model[i + 1..] + ":" + r.workload, r.batch);
      assert r.model == r.model[..i] + ":" + r.model[i + 1..];
      assert t.model + ":" + t.workload == r.model + ":" + r.workload;
      assert PreImage(t) == PreImage(r) && |t.model| < |r.model|;
    } else {
      var i :| 0 <= i < |r.workload| && r.workload[i] == ':';
      var t := Spec(r.model + ":" + r.workload[..i], r.workload[i + 1..], r.batch);
      assert r.workload == r.workload[..i] + ":" + r.workload[i + 1..];
      assert t.model + ":" + t.workload == r.model + ":" + r.workload;
      assert PreImage(t) == PreImage(r) && |t.model| > |r.model|;
    }
  }

  /** With a digest that does not collide on the two pre-images, two anonymous requests share a row
      exactly when their pre-images agree. */
  lemma AnonymousShare(digest: string -> string, r: Spec, t: Spec)
    requires digest(PreImage(r)) == digest(PreImage(t)) ==> PreImage(r) == PreImage(t)
    requires r.batch > 0 && t.batch > 0 && ':' !in r.model && ':' !in t.model
    ensures KeyOf(digest, Anonymous, r) == KeyOf(digest, Anonymous, t) <==> r == t
  {
    DefaultKeysParse(r, t);
  }
}
