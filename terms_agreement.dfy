/**
 * The terms checklist of src/components/signup/Termsagreement.tsx: five
 * agreement flags and an "agree to all" flag kept equal to their conjunction.
 */
module TermsAgreement {

  datatype Agreements = Agreements(all: bool, service: bool, privacy: bool, location: bool, camera: bool, marketing: bool)

  /** The five individual checkboxes (the keys the screen passes to the individual handler). */
  datatype Item = Service | Privacy | Location | Camera | Marketing

  const Initial := Agreements(false, false, false, false, false, false)

  function Flag(a: Agreements, k: Item): bool {
    match k
    case Service => a.service
    case Privacy => a.privacy
    case Location => a.location
    case Camera => a.camera
    case Marketing => a.marketing
  }

  /** The "all" box shows exactly whether all five items are ticked. */
  predicate Consistent(a: Agreements) {
    a.all == (a.service && a.privacy && a.location && a.camera && a.marketing)
  }

  /** `handleAllAgree`: every flag, "all" included, becomes the negation of the previous "all". */
  function AllAgreed(a: Agreements): (r: Agreements)
    ensures r.all == !a.all
    ensures forall k :: Flag(r, k) == !a.all
    ensures Consistent(r)
  {
    var v := !a.all;
    Agreements(v, v, v, v, v, v)
  }

  /**
   * `handleIndividualAgree(k)`: flips item k, keeps the other items, and
   * recomputes "all" from the four required items and marketing.
   */
  function IndividualAgreed(a: Agreements, k: Item): (r: Agreements)
    ensures Flag(r, k) == !Flag(a, k)
    ensures forall j :: j != k ==> Flag(r, j) == Flag(a, j)
    ensures Consistent(r)
  {
    var n := match k
      case Service => a.(service := !a.service)
      case Privacy => a.(privacy := !a.privacy)
      case Location => a.(location := !a.location)
      case Camera => a.(camera := !a.camera)
      case Marketing => a.(marketing := !a.marketing);
    var allRequired := n.service && n.privacy && n.location && n.camera;
    n.(all := allRequired && n.marketing)
  }

  /** `canProceed`: the four required items are ticked; marketing is optional. */
  predicate CanProceed(a: Agreements) {
    a.service && a.privacy && a.location && a.camera
  }

  /** Marketing never decides whether the user may proceed. */
  lemma MarketingIsOptional(a: Agreements)
    ensures CanProceed(a) == CanProceed(IndividualAgreed(a, Marketing))
    ensures CanProceed(a) <==> forall k :: k != Marketing ==> Flag(a, k)
  {
    assert Flag(a, Service) && Flag(a, Privacy) && Flag(a, Location) && Flag(a, Camera) ==> CanProceed(a);
  }

  /** Ticking the same box twice gives back the whole record, provided "all" agreed with the items before. */
  lemma ToggleTwiceRestores(a: Agreements, k: Item)
    requires Consistent(a)
    ensures IndividualAgreed(IndividualAgreed(a, k), k) == a
  {
  }

  /** A click on the checklist: the "agree to all" box or one item. */
  datatype Click = ClickAll | ClickItem(item: Item)

  function Clicked(a: Agreements, c: Click): Agreements {
    match c
    case ClickAll => AllAgreed(a)
    case ClickItem(k) => IndividualAgreed(a, k)
  }

  /** The record after a sequence of clicks. */
  function AfterClicks(a: Agreements, cs: seq<Click>): Agreements
    decreases |cs|
  {
    if cs == [] then a else AfterClicks(Clicked(a, cs[0]), cs[1..])
  }

  /** From the initial record, after any clicks, "all" is exactly the conjunction of the five items. */
  lemma {:induction false} ConsistentAfterClicks(a: Agreements, cs: seq<Click>)
    requires Consistent(a)
    ensures Consistent(AfterClicks(a, cs))
    decreases |cs|
  {
    if cs != [] {
      ConsistentAfterClicks(Clicked(a, cs[0]), cs[1..]);
    }
  }

  class TermsForm {
    var agreements: Agreements

    constructor ()
      ensures agreements == Initial && Consistent(agreements)
    {
      agreements := Initial;
    }

    method HandleAllAgree()
      modifies this
      ensures agreements == AllAgreed(old(agreements))
    {
      var v := !agreements.all;
      agreements := Agreements(v, v, v, v, v, v);
    }

    method HandleIndividualAgree(k: Item)
      modifies this
      ensures agreements == IndividualAgreed(old(agreements), k)
    {
      var n := agreements;
      match k {
        case Service => n := n.(service := !n.service);
        case Privacy => n := n.(privacy := !n.privacy);
        case Location => n := n.(location := !n.location);
        case Camera => n := n.(camera := !n.camera);
        case Marketing => n := n.(marketing := !n.marketing);
      }
      var allRequired := n.service && n.privacy && n.location && n.camera;
      n := n.(all := allRequired && n.marketing);
      agreements := n;
    }

    /** `handleNext`: calls `onNext` (reported as `proceeded`) exactly when the required items are ticked. */
    method HandleNext() returns (proceeded: bool)
      ensures proceeded <==> agreements.service && agreements.privacy && agreements.location && agreements.camera
    {
      proceeded := CanProceed(agreements);
    }
  }
}
