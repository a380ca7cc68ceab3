/**
 * The thin handlers of the page: the mobile-menu toggle, the highlighting of
 * the navigation link of the current page, and the buy and bid buttons of
 * the NFT cards.
 */
module Navigation {
  import opened Common

  /** The mobile menu, whose visibility the menu button toggles. */
  class MobileMenu {
    var hidden: bool

    constructor (hidden: bool)
      ensures this.hidden == hidden
    {
      this.hidden := hidden;
    }

    method OnMenuClick()
      modifies this
      ensures hidden == !old(hidden)
    {
      hidden := !hidden;
    }
  }

  /**
   * Highlights the navigation links: `cyan[k]` is whether link k carries the
   * highlight class. Every link whose `href` equals the current path exactly
   * gains it; the class is only ever added, never removed.
   */
  method HighlightActive(hrefs: seq<string>, path: string, cyan: array<bool>)
    requires cyan.Length == |hrefs|
    modifies cyan
    ensures forall k :: 0 <= k < cyan.Length ==> cyan[k] == (old(cyan[k]) || hrefs[k] == path)
  {
    var k := 0;
    while k < cyan.Length
      invariant 0 <= k <= cyan.Length
      invariant forall j :: 0 <= j < k ==> cyan[j] == (old(cyan[j]) || hrefs[j] == path)
      invariant forall j :: k <= j < cyan.Length ==> cyan[j] == old(cyan[j])
    {
      if hrefs[k] == path {
        cyan[k] := true;
      }
      k := k + 1;
    }
  }

  /** The two trade buttons of an NFT card. */
  datatype TradeAction = Buy | Bid

  function TradePrefix(action: TradeAction): string
  {
    if action == Buy then "Purchasing " else "Bidding on "
  }

  /** The info toast of a trade button: "Purchasing <title>..." for a purchase, "Bidding on <title>..." otherwise. */
  function TradeMessage(action: TradeAction, title: string): string
  {
    TradePrefix(action) + title + "..."
  }

  /** A trade toast tells which button was clicked and on which card: no two clicks read alike. */
  lemma TradeMessageIdentifies(a1: TradeAction, t1: string, a2: TradeAction, t2: string)
    requires TradeMessage(a1, t1) == TradeMessage(a2, t2)
    ensures a1 == a2 && t1 == t2
  {
    var m := TradeMessage(a1, t1);
    assert |TradePrefix(a1)| == 11 && |TradePrefix(a2)| == 11;
    assert m[..11] == TradePrefix(a1) && m[..11] == TradePrefix(a2);
    assert TradePrefix(Buy)[0] != TradePrefix(Bid)[0];
    assert m[11..|m| - 3] == t1 && m[11..|m| - 3] == t2;
  }

  /** A click on a trade button: one info toast naming the card's title (the click does not reach the card itself). */
  method OnTradeClick(action: TradeAction, title: string, center: Notifier)
    modifies center
    ensures center.shown == old(center.shown) + [Notice(TradeMessage(action, title), Info)]
  {
    center.Show(TradeMessage(action, title), Info);
  }
}
