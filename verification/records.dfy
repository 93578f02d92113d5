/** The product records the catalog returns, their normalisation into items
    (every missing or falsy field replaced by a fixed default), the status
    label, and the text of the notification built from one item. */
module Records {
  import opened Wrappers

  /** One entry of `searchedProducts.productDetails`. Every field may be
      absent; a present field is a string. */
  datatype RawRecord = RawRecord(
    productTitle: Option<string>,
    productSKU: Option<string>,
    productPrice: Option<string>,
    prdStatus: Option<string>,
    internalLink: Option<string>)

  /** A record once each field has been defaulted: the tuple
      (name, sku, price, status, link) the stock check works on. */
  datatype Item = Item(name: string, sku: string, price: string, status: string, link: string)

  const DefaultName: string := "Unknown GPU"
  const DefaultSku: string := "Unknown SKU"
  const DefaultPrice: string := "Unknown Price"
  const DefaultStatus: string := "out_of_stock"
  const DefaultLink: string := ""

  /** The one raw status the label reports as available. */
  const BuyNow: string := "buy_now"

  /** JavaScript truthiness of a string-or-absent field: only a present,
      non-empty string is truthy. */
  predicate Truthy(field: Option<string>) {
    field.Some? && field.value != ""
  }

  /** The expression `field || fallback`. */
  function OrElse(field: Option<string>, fallback: string): string {
    if Truthy(field) then field.value else fallback
  }

  /** Normalisation of one record: a truthy field is kept verbatim, a missing
      or falsy one becomes its default. Only the link may end up empty, so in
      particular the SKU, used as the key of the status map, never is. */
  function Normalise(raw: RawRecord): (it: Item)
    ensures Truthy(raw.productTitle) ==> it.name == raw.productTitle.value
    ensures !Truthy(raw.productTitle) ==> it.name == DefaultName
    ensures Truthy(raw.productSKU) ==> it.sku == raw.productSKU.value
    ensures !Truthy(raw.productSKU) ==> it.sku == DefaultSku
    ensures Truthy(raw.productPrice) ==> it.price == raw.productPrice.value
    ensures !Truthy(raw.productPrice) ==> it.price == DefaultPrice
    ensures Truthy(raw.prdStatus) ==> it.status == raw.prdStatus.value
    ensures !Truthy(raw.prdStatus) ==> it.status == DefaultStatus
    ensures Truthy(raw.internalLink) ==> it.link == raw.internalLink.value
    ensures !Truthy(raw.internalLink) ==> it.link == DefaultLink
    ensures it.name != "" && it.sku != "" && it.price != "" && it.status != ""
  {
    Item(
      OrElse(raw.productTitle, DefaultName),
      OrElse(raw.productSKU, DefaultSku),
      OrElse(raw.productPrice, DefaultPrice),
      OrElse(raw.prdStatus, DefaultStatus),
      OrElse(raw.internalLink, DefaultLink))
  }

  /** Normalisation of a whole product list, record by record. */
  function NormaliseAll(records: seq<RawRecord>): seq<Item> {
    seq(|records|, i requires 0 <= i < |records| => Normalise(records[i]))
  }

  // The two labels. The emoji that precede them in the notifications are
  // treated as part of an opaque constant and left out.
  const AvailableLabel: string := "AVAILABLE"
  const OutOfStockLabel: string := "OUT OF STOCK"

  /** The human label of a raw status: available exactly for `buy_now`,
      out of stock for every other string, including unknown ones. */
  function Label(status: string): (shown: string)
    ensures shown == AvailableLabel <==> status == BuyNow
    ensures shown == OutOfStockLabel <==> status != BuyNow
  {
    if status == BuyNow then AvailableLabel else OutOfStockLabel
  }

  // The fixed pieces of the notification template (emoji left out).
  const Header: string := "Product:\n\n"
  const TitleTag: string := "**Title**: "
  const SkuTag: string := "**SKU**: "
  const PriceTag: string := "**Price**: "
  const StatusTag: string := "**Status**: "
  const LinkTag: string := "**Link**: "

  /** `part` occurs somewhere in `s` as a contiguous piece. */
  predicate Contains(s: string, part: string) {
    exists i :: 0 <= i <= |s| && part <= s[i..]
  }

  /** `s` ends with `suffix`. */
  predicate EndsWith(s: string, suffix: string) {
    |suffix| <= |s| && s[|s| - |suffix|..] == suffix
  }

  /** `a` and then, starting strictly later, `b` occur in `s`. */
  predicate Precedes(s: string, a: string, b: string) {
    exists i, j :: 0 <= i < j <= |s| && a <= s[i..] && b <= s[j..]
  }

  /** The notification text for one item, built from the fixed template. It
      opens with the header, and its last line is the link, after a blank
      line. */
  function Message(it: Item): (m: string)
    ensures Header <= m
    ensures EndsWith(m, "\n" + ("\n" + (LinkTag + it.link)))
  {
    var text := Header + (TitleTag + it.name + "\n" + (SkuTag + it.sku + "\n" + (PriceTag + it.price + "\n" +
      (StatusTag + Label(it.status) + "\n" + ("\n" + (LinkTag + it.link))))));
    Framed(Header, TitleTag + it.name + "\n", SkuTag + it.sku + "\n", PriceTag + it.price + "\n",
      StatusTag + Label(it.status) + "\n", LinkTag + it.link);
    text
  }

  /** Between the header and the link line, a notification names the title,
      the SKU, the price and the status label, each after its tag on a line
      of its own, in that order. */
  lemma {:induction false} MessageShape(it: Item)
    ensures Header + (TitleTag + it.name + "\n") <= Message(it)
    ensures Precedes(Message(it), "\n" + (TitleTag + it.name + "\n"), "\n" + (SkuTag + it.sku + "\n"))
    ensures Precedes(Message(it), "\n" + (SkuTag + it.sku + "\n"), "\n" + (PriceTag + it.price + "\n"))
    ensures Precedes(Message(it), "\n" + (PriceTag + it.price + "\n"), "\n" + (StatusTag + Label(it.status) + "\n"))
    ensures Precedes(Message(it), "\n" + (StatusTag + Label(it.status) + "\n"), "\n" + ("\n" + (LinkTag + it.link)))
  {
    var a, b, c := Header, TitleTag + it.name + "\n", SkuTag + it.sku + "\n";
    var d, e, f := PriceTag + it.price + "\n", StatusTag + Label(it.status) + "\n", "\n" + (LinkTag + it.link);
    assert Message(it) == a + (b + (c + (d + (e + f))));
    assert a[|a| - 1] == '\n';
    assert b[|b| - 1] == '\n';
    assert c[|c| - 1] == '\n';
    assert d[|d| - 1] == '\n';
    assert e[|e| - 1] == '\n';
    LinesOfFive(a, b, c, d, e, f);
  }

  /** In a right-nested concatenation of pieces that each end with a
      newline (the last aside), every piece after the first, with the newline before it, is a line start; these
      lines come in the order of the pieces. */
  lemma {:induction false} LinesOfFive(a: string, b: string, c: string, d: string, e: string, f: string)
    requires |a| > 0 && a[|a| - 1] == '\n'
    requires |b| > 0 && b[|b| - 1] == '\n'
    requires |c| > 0 && c[|c| - 1] == '\n'
    requires |d| > 0 && d[|d| - 1] == '\n'
    requires |e| > 0 && e[|e| - 1] == '\n'
    ensures var s := a + (b + (c + (d + (e + f))));
      && Precedes(s, "\n" + b, "\n" + c)
      && Precedes(s, "\n" + c, "\n" + d)
      && Precedes(s, "\n" + d, "\n" + e)
      && Precedes(s, "\n" + e, "\n" + f)
  {
    var s := a + (b + (c + (d + (e + f))));
    PiecesOfFive(a, b, c, d, e, f);
    var kb, kc := |a|, |a| + |b|;
    var kd, ke := kc + |c|, kc + |c| + |d|;
    assert s[kb - 1] == '\n';
    assert s[kc - 1] == '\n' by { assert s[kc - 1] == s[kb..][|b| - 1]; }
    assert s[kd - 1] == '\n' by { assert s[kd - 1] == s[kc..][|c| - 1]; }
    assert s[ke - 1] == '\n' by { assert s[ke - 1] == s[kd..][|d| - 1]; }
    var kf := ke + |e|;
    assert kf == |s| - |f|;
    assert s[kf - 1] == '\n' by { assert s[kf - 1] == s[ke..][|e| - 1]; }
    LineStart(s, kb, b);
    LineStart(s, kc, c);
    LineStart(s, kd, d);
    LineStart(s, ke, e);
    LineStart(s, kf, f);
  }

  /** Both pieces of an ordered pair occur in the text. */
  lemma {:induction false} PrecedesContains(s: string, a: string, b: string)
    requires Precedes(s, a, b)
    ensures Contains(s, a) && Contains(s, b)
  {
    var i, j :| 0 <= i < j <= |s| && a <= s[i..] && b <= s[j..];
  }

  /** A right-nested concatenation whose last piece follows a newline
      starts with its first piece and ends with a line holding its last. */
  lemma {:induction false} Framed(a: string, b: string, c: string, d: string, e: string, f: string)
    requires |e| > 0 && e[|e| - 1] == '\n'
    ensures var s := a + (b + (c + (d + (e + ("\n" + f)))));
      a <= s && EndsWith(s, "\n" + ("\n" + f))
  {
    var s := a + (b + (c + (d + (e + ("\n" + f)))));
    PiecesOfFive(a, b, c, d, e, "\n" + f);
    var k := |s| - |"\n" + f|;
    assert s[k - 1] == e[|e| - 1] by { assert e <= s[k - |e|..]; }
    LineStart(s, k, "\n" + f);
  }

  /** A piece that starts right after a newline is, with that newline, a
      line start. */
  lemma {:induction false} LineStart(s: string, k: nat, x: string)
    requires 0 < k <= |s| && s[k - 1] == '\n' && x <= s[k..]
    ensures "\n" + x <= s[k - 1..]
  {
    assert s[k - 1..] == [s[k - 1]] + s[k..];
  }

  /** Each piece of a right-nested concatenation starts where the pieces
      before it end; the first is a prefix and the last a suffix. */
  lemma {:induction false} PiecesOfFive(a: string, b: string, c: string, d: string, e: string, f: string)
    ensures var s := a + (b + (c + (d + (e + f))));
      && a <= s
      && b <= s[|a|..]
      && c <= s[|a| + |b|..]
      && d <= s[|a| + |b| + |c|..]
      && e <= s[|a| + |b| + |c| + |d|..]
      && EndsWith(s, f)
  {
    var s := a + (b + (c + (d + (e + f))));
    var sb := b + (c + (d + (e + f)));
    var sc := c + (d + (e + f));
    var sd := d + (e + f);
    var se := e + f;
    assert s[|a|..] == sb;
    assert s[|a| + |b|..] == sc by { assert sb[|b|..] == sc; }
    assert s[|a| + |b| + |c|..] == sd by { assert sc[|c|..] == sd; }
    assert s[|a| + |b| + |c| + |d|..] == se by { assert sd[|d|..] == se; }
    assert s[|s| - |f|..] == f by { assert se[|e|..] == f; }
  }
}
