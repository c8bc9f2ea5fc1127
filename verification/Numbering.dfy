/** Document numbers: per-branch counters, zero-padded printing, and what "gap-free" means. */
module Numbering {

  const FISCAL_YEAR := "2526"

  datatype Kind = SalesInvoice | CustomerCreditNote | PurchaseBill | SupplierCreditNote | SupplierPaymentSlip

  type Counters = map<(string, string), nat>

  function Prefix(kind: Kind): string
  {
    match kind
    case SalesInvoice => "SINV"
    case CustomerCreditNote => "SCN"
    case PurchaseBill => "SPINV"
    case SupplierCreditNote => "SRCN"
    case SupplierPaymentSlip => "SPAY"
  }

  /** The key suffix that separates the five kinds inside one dictionary. */
  function Suffix(kind: Kind): string
  {
    match kind
    case SalesInvoice => ""
    case CustomerCreditNote => ":credit_note"
    case PurchaseBill => ":purchase_invoice"
    case SupplierCreditNote => ":supplier_credit_note"
    case SupplierPaymentSlip => ":supplier_payment"
  }

  function CounterKey(kind: Kind, branch: string): (string, string) { (branch + Suffix(kind), FISCAL_YEAR) }

  predicate NoColon(s: string) { ':' !in s }

  /** Counters of different branches or kinds never share a key, because branch ids hold no colon. */
  lemma KeysNeverCollide(k1: Kind, b1: string, k2: Kind, b2: string)
    requires NoColon(b1) && NoColon(b2)
    requires CounterKey(k1, b1) == CounterKey(k2, b2)
    ensures k1 == k2 && b1 == b2
  {
    var s1, s2 := b1 + Suffix(k1), b2 + Suffix(k2);
    assert s1 == s2;
    ColonPosition(b1, Suffix(k1), b2, Suffix(k2));
    ColonPosition(b2, Suffix(k2), b1, Suffix(k1));
    assert b1 == s1[..|b1|] && b2 == s2[..|b1|];
    assert Suffix(k1) == s1[|b1|..] && Suffix(k2) == s2[|b1|..];
    SuffixesDiffer(k1, k2);
  }

  lemma ColonPosition(b1: string, x1: string, b2: string, x2: string)
    requires NoColon(b2) && (|x1| > 0 ==> x1[0] == ':')
    requires b1 + x1 == b2 + x2
    ensures |b1| >= |b2|
  {
    assert |x1| > 0 ==> (b1 + x1)[|b1|] == ':';
    assert forall i :: 0 <= i < |b2| ==> (b2 + x2)[i] == b2[i];
  }

  lemma SuffixesDiffer(k1: Kind, k2: Kind)
    requires Suffix(k1) == Suffix(k2)
    ensures k1 == k2
  {
    if !k1.SalesInvoice? && !k2.SalesInvoice? { assert Suffix(k1)[1] == Suffix(k2)[1]; }
    assert |Suffix(k1)| == |Suffix(k2)|;
  }

  // ---- printing ----

  function Digit(d: nat): char
    requires d < 10
  {
    ('0' as int + d) as char
  }

  function Digits(n: nat): string
  {
    if n < 10 then [Digit(n)] else Digits(n / 10) + [Digit(n % 10)]
  }

  function Zeros(k: nat): string
  {
    if k == 0 then [] else Zeros(k - 1) + ['0']
  }

  /** The format `{n:06d}`: at least six digits, more when the number needs them. */
  function Padded(n: nat): string
  {
    var d := Digits(n);
    if |d| < 6 then Zeros(6 - |d|) + d else d
  }

  function Number(kind: Kind, n: nat): string { Prefix(kind) + "-" + FISCAL_YEAR + "-" + Padded(n) }

  function Value(s: string): int
  {
    if |s| == 0 then 0 else 10 * Value(s[..|s| - 1]) + s[|s| - 1] as int - '0' as int
  }

  lemma {:induction false} ValueOfDigits(n: nat)
    ensures Value(Digits(n)) == n
  {
    var d := Digits(n);
    if n >= 10 {
      ValueOfDigits(n / 10);
      assert d[..|d| - 1] == Digits(n / 10);
    } else {
      assert d[..0] == [];
    }
  }

  lemma {:induction false} ValueOfZeros(k: nat)
    ensures Value(Zeros(k)) == 0
  {
    if k > 0 {
      ValueOfZeros(k - 1);
      assert Zeros(k)[..k - 1 + |Zeros(k)| - k] == Zeros(k - 1);
    }
  }

  lemma {:induction false} ValueIgnoresZeros(z: string, s: string)
    requires Value(z) == 0
    ensures Value(z + s) == Value(s)
  {
    if |s| == 0 {
      assert z + s == z;
    } else {
      assert (z + s)[..|z + s| - 1] == z + s[..|s| - 1];
      ValueIgnoresZeros(z, s[..|s| - 1]);
    }
  }

  /** Reading back a padded number gives the number, however long it is. */
  lemma ValueOfPadded(n: nat)
    ensures Value(Padded(n)) == n
  {
    var d := Digits(n);
    ValueOfDigits(n);
    if |d| < 6 {
      ValueOfZeros(6 - |d|);
      ValueIgnoresZeros(Zeros(6 - |d|), d);
    }
  }

  /** Two documents of one kind carry the same printed number only when they drew the same number. */
  lemma NumberInjective(kind: Kind, m: nat, n: nat)
    requires Number(kind, m) == Number(kind, n)
    ensures m == n
  {
    var head := Prefix(kind) + "-" + FISCAL_YEAR + "-";
    assert Padded(m) == Number(kind, m)[|head|..] && Padded(n) == Number(kind, n)[|head|..];
    ValueOfPadded(m);
    ValueOfPadded(n);
  }

  // ---- counters and gap-freeness ----

  function Counter(counters: Counters, kind: Kind, branch: string): nat
  {
    var key := CounterKey(kind, branch);
    if key in counters then counters[key] else 0
  }

  /** `sequence[key] = sequence.get(key, 0) + 1`. */
  function Advance(counters: Counters, kind: Kind, branch: string): Counters
  {
    counters[CounterKey(kind, branch) := Counter(counters, kind, branch) + 1]
  }

  function NextNumber(counters: Counters, kind: Kind, branch: string): string
  {
    Number(kind, Counter(counters, kind, branch) + 1)
  }

  lemma AdvanceMovesOneCounter(counters: Counters, kind: Kind, branch: string, k: Kind, b: string)
    requires NoColon(branch) && NoColon(b)
    ensures Counter(Advance(counters, kind, branch), k, b)
         == Counter(counters, k, b) + if k == kind && b == branch then 1 else 0
  {
    if CounterKey(kind, branch) == CounterKey(k, b) { KeysNeverCollide(kind, branch, k, b); }
  }

  /** Branch and printed number of a stored document. */
  datatype Tag = Tag(branch: string, number: string)

  predicate Issued(counters: Counters, kind: Kind, tag: Tag, n: nat)
  {
    NoColon(tag.branch) && 1 <= n <= Counter(counters, kind, tag.branch) && tag.number == Number(kind, n)
  }

  ghost predicate Stored<V>(docs: map<string, V>, tag: V -> Tag, t: Tag)
  {
    exists i :: i in docs && tag(docs[i]) == t
  }

  /**
   * For every branch the numbers on the stored documents of one kind are exactly 1 .. counter, each on one
   * document.
   */
  ghost predicate GapFree<V>(kind: Kind, docs: map<string, V>, tag: V -> Tag, counters: Counters)
  {
    && (forall i :: i in docs ==> exists n: nat :: Issued(counters, kind, tag(docs[i]), n))
    && (forall b: string, n: nat :: NoColon(b) && 1 <= n <= Counter(counters, kind, b) ==>
          Stored(docs, tag, Tag(b, Number(kind, n))))
    && (forall i, j :: i in docs && j in docs && tag(docs[i]) == tag(docs[j]) ==> i == j)
  }

  /** Numbers already issued stay issued when a counter advances. */
  lemma IssuedStays(counters: Counters, kind: Kind, tag: Tag, n: nat, branch: string)
    requires Issued(counters, kind, tag, n) && NoColon(branch)
    ensures Issued(Advance(counters, kind, branch), kind, tag, n)
  {
    AdvanceMovesOneCounter(counters, kind, branch, kind, tag.branch);
  }

  /** The next number is on no stored document. */
  lemma NextNumberIsNew<V>(kind: Kind, docs: map<string, V>, tag: V -> Tag, counters: Counters, i: string, branch: string)
    requires GapFree(kind, docs, tag, counters) && i in docs
    ensures tag(docs[i]) != Tag(branch, NextNumber(counters, kind, branch))
  {
    var n: nat :| Issued(counters, kind, tag(docs[i]), n);
    if tag(docs[i]) == Tag(branch, NextNumber(counters, kind, branch)) {
      NumberInjective(kind, n, Counter(counters, kind, branch) + 1);
      assert false;
    }
  }

  lemma EveryNumberIsStored<V>(kind: Kind, docs: map<string, V>, tag: V -> Tag, counters: Counters, id: string, doc: V,
                               b: string, n: nat)
    requires GapFree(kind, docs, tag, counters) && id !in docs && NoColon(tag(doc).branch)
    requires tag(doc).number == NextNumber(counters, kind, tag(doc).branch)
    requires NoColon(b) && 1 <= n <= Counter(Advance(counters, kind, tag(doc).branch), kind, b)
    ensures Stored(docs[id := doc], tag, Tag(b, Number(kind, n)))
  {
    var docs' := docs[id := doc];
    AdvanceMovesOneCounter(counters, kind, tag(doc).branch, kind, b);
    if n <= Counter(counters, kind, b) {
      assert Stored(docs, tag, Tag(b, Number(kind, n)));
      var i :| i in docs && tag(docs[i]) == Tag(b, Number(kind, n));
      assert i in docs' && tag(docs'[i]) == Tag(b, Number(kind, n));
    } else {
      assert id in docs' && tag(docs'[id]) == Tag(b, Number(kind, n));
    }
  }

  /** Storing a document under the next number keeps its kind gap-free. */
  lemma NewDocumentKeepsGapFree<V>(kind: Kind, docs: map<string, V>, tag: V -> Tag, counters: Counters, id: string, doc: V)
    requires GapFree(kind, docs, tag, counters)
    requires id !in docs && NoColon(tag(doc).branch)
    requires tag(doc).number == NextNumber(counters, kind, tag(doc).branch)
    ensures GapFree(kind, docs[id := doc], tag, Advance(counters, kind, tag(doc).branch))
  {
    var b := tag(doc).branch;
    var counters', docs' := Advance(counters, kind, b), docs[id := doc];
    forall i | i in docs' ensures exists n: nat :: Issued(counters', kind, tag(docs'[i]), n) {
      if i == id {
        AdvanceMovesOneCounter(counters, kind, b, kind, b);
        assert Issued(counters', kind, tag(doc), Counter(counters, kind, b) + 1);
      } else {
        var n: nat :| Issued(counters, kind, tag(docs[i]), n);
        IssuedStays(counters, kind, tag(docs[i]), n, b);
      }
    }
    forall c: string, n: nat | NoColon(c) && 1 <= n <= Counter(counters', kind, c)
      ensures Stored(docs', tag, Tag(c, Number(kind, n)))
    {
      EveryNumberIsStored(kind, docs, tag, counters, id, doc, c, n);
    }
    forall i | i in docs ensures tag(docs[i]) != tag(doc) {
      NextNumberIsNew(kind, docs, tag, counters, i, b);
    }
  }

  /** Drawing a number of another kind does not disturb this one. */
  lemma OtherKindKeepsGapFree<V>(kind: Kind, docs: map<string, V>, tag: V -> Tag, counters: Counters, other: Kind,
      branch: string)
    requires GapFree(kind, docs, tag, counters)
    requires other != kind && NoColon(branch)
    ensures GapFree(kind, docs, tag, Advance(counters, other, branch))
  {
    var counters' := Advance(counters, other, branch);
    forall b: string | NoColon(b) ensures Counter(counters', kind, b) == Counter(counters, kind, b) {
      AdvanceMovesOneCounter(counters, other, branch, kind, b);
    }
    forall i | i in docs ensures exists n: nat :: Issued(counters', kind, tag(docs[i]), n) {
      var n: nat :| Issued(counters, kind, tag(docs[i]), n);
      assert Issued(counters', kind, tag(docs[i]), n);
    }
  }
}
