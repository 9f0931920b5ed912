/** The fixed catalogue of payment packages and the lookups built on it. */
module Packages {
  import opened Wrappers
  import opened SurveyTypes
  import opened Seqs

  const PAYMENT_PACKAGES: seq<PaymentPackage> := [
    PaymentPackage("basic", "Basic", 10, 29,
      ["Up to 10 questions", "Basic analytics", "QR code generation", "Email support"], false),
    PaymentPackage("standard", "Standard", 30, 79,
      ["Up to 30 questions", "Advanced analytics", "QR code generation", "Priority support",
       "Custom branding"], true),
    PaymentPackage("premium", "Premium", 100, 199,
      ["Up to 100 questions", "Premium analytics", "QR code generation", "24/7 support",
       "Custom branding", "API access", "White-label solution"], false)
  ]

  /** What a company that bought nothing has. */
  const NO_PACKAGE: PaymentPackage := PaymentPackage("none", "No Package", 0, 0, [], false)

  predicate HasId(id: string, p: PaymentPackage) {
    p.id == id
  }

  /** `PAYMENT_PACKAGES.find(p => p.id === id)`. */
  function FindPackage(id: string): (r: Option<PaymentPackage>)
    ensures r.Some? ==> r.value in PAYMENT_PACKAGES && r.value.id == id
    ensures r.None? <==> forall p :: p in PAYMENT_PACKAGES ==> p.id != id
  {
    Find(PAYMENT_PACKAGES, p => HasId(id, p))
  }

  /** The lookup the survey pages use, falling back to the first package. */
  function PackageOrFirst(id: string): (r: PaymentPackage)
    ensures r in PAYMENT_PACKAGES
    ensures (exists p :: p in PAYMENT_PACKAGES && p.id == id) ==> r.id == id
    ensures (forall p :: p in PAYMENT_PACKAGES ==> p.id != id) ==> r == PAYMENT_PACKAGES[0]
  {
    FindPackage(id).GetOr(PAYMENT_PACKAGES[0])
  }

  /** The package a tier stands for; the fallback never fires for a tier. */
  function SelectedPackage(t: PackageType): (r: PaymentPackage)
    ensures r in PAYMENT_PACKAGES && r.id == PackageTypeId(t)
  {
    assert PAYMENT_PACKAGES[0].id == "basic" && PAYMENT_PACKAGES[1].id == "standard"
      && PAYMENT_PACKAGES[2].id == "premium";
    PackageOrFirst(PackageTypeId(t))
  }

  /** The question bound a tier allows: 10, 30 or 100. */
  function MaxQuestionsFor(t: PackageType): (n: nat)
    ensures n == match t case Basic => 10 case Standard => 30 case Premium => 100
  {
    SelectedPackage(t).maxQuestions
  }

  /** The catalogue position of a tier's package. */
  function TierIndex(t: PackageType): (i: nat)
    ensures i < |PAYMENT_PACKAGES| && PAYMENT_PACKAGES[i].id == PackageTypeId(t)
  {
    match t
    case Basic => 0
    case Standard => 1
    case Premium => 2
  }

  /** A tier finds the catalogue entry at its own position. */
  lemma SelectedPackageAt(t: PackageType)
    ensures SelectedPackage(t) == PAYMENT_PACKAGES[TierIndex(t)]
  {
    var pp := PAYMENT_PACKAGES;
    var r := SelectedPackage(t);
    var i :| 0 <= i < |pp| && pp[i] == r;
    assert pp[0].id == "basic" && pp[1].id == "standard" && pp[2].id == "premium";
  }

  /** The catalogue has three entries and their ids are distinct, so
      looking a package up by id is a function. */
  lemma PackageIdsAreTheTiers()
    ensures forall i, j :: 0 <= i < j < |PAYMENT_PACKAGES| ==>
      PAYMENT_PACKAGES[i].id != PAYMENT_PACKAGES[j].id
    ensures |PAYMENT_PACKAGES| == 3
  {
  }

  /** The catalogue is exactly the packages of the three tiers, in order. */
  lemma CatalogueIsTheTiers()
    ensures PAYMENT_PACKAGES == [SelectedPackage(Basic), SelectedPackage(Standard), SelectedPackage(Premium)]
  {
    SelectedPackageAt(Basic);
    SelectedPackageAt(Standard);
    SelectedPackageAt(Premium);
  }

  /** A larger question bound costs strictly more: 29 < 79 < 199. */
  lemma PriceIncreasesWithBound()
    ensures forall i, j :: 0 <= i < |PAYMENT_PACKAGES| && 0 <= j < |PAYMENT_PACKAGES| ==>
      (PAYMENT_PACKAGES[i].maxQuestions < PAYMENT_PACKAGES[j].maxQuestions <==>
       PAYMENT_PACKAGES[i].price < PAYMENT_PACKAGES[j].price)
  {
  }

  /** Only the standard package is flagged popular. */
  lemma OnlyStandardIsPopular()
    ensures forall p :: p in PAYMENT_PACKAGES ==> (p.popular <==> p.id == "standard")
  {
  }

  /** NO_PACKAGE is no catalogue entry: id 'none', no questions, no price. */
  lemma NoPackageIsEmpty()
    ensures NO_PACKAGE.id == "none" && NO_PACKAGE.maxQuestions == 0 && NO_PACKAGE.price == 0
    ensures FindPackage(NO_PACKAGE.id).None?
  {
  }
}
