/**
 * The body of the order sent to the payment service provider (PSP) for a
 * donation, and the return URL that brings the donor back to the campaign.
 */
module Orders {
  import opened Common

  /** The only currency orders are placed in. */
  const Currency: string := "EUR"

  /** Minor currency units (cents) per unit of a donation amount. */
  const MinorUnitsPerUnit: nat := 100

  /**
   * A return-URL setting with a single `{}` placeholder, split at that
   * placeholder: formatting puts the campaign key between the two parts.
   */
  datatype UrlTemplate = UrlTemplate(prefix: string, suffix: string)

  /** The return-URL setting of the development configuration. */
  const DevReturnUrl: UrlTemplate :=
    UrlTemplate("http://localhost/crowdfunding/ginger_return_redirect/?campaign_pk=", "")

  /** The JSON body of an order-creation request; `submerchantId` is its `extra` entry. */
  datatype OrderBody = OrderBody(currency: string, amount: int, returnUrl: string, description: string,
                                 submerchantId: string)

  predicate IsDigit(ch: char) {
    '0' <= ch <= '9'
  }

  predicate IsDecimal(s: string) {
    |s| > 0 && forall i :: 0 <= i < |s| ==> IsDigit(s[i])
  }

  function DigitChar(d: nat): (ch: char)
    requires d < 10
    ensures IsDigit(ch)
  {
    ('0' as int + d) as char
  }

  function DigitValue(ch: char): (d: nat)
    requires IsDigit(ch)
    ensures d < 10
  {
    ch as int - '0' as int
  }

  /** The decimal digits of `n`, as `str(n)` writes them: no leading zero, and "0" for zero. */
  function Decimal(n: nat): (s: string)
    ensures IsDecimal(s)
    ensures n > 0 ==> s[0] != '0'
    ensures n == 0 ==> s == "0"
    decreases n
  {
    if n < 10 then [DigitChar(n)] else Decimal(n / 10) + [DigitChar(n % 10)]
  }

  /** The number a string of decimal digits denotes. */
  function DecimalValue(s: string): nat
    requires forall i :: 0 <= i < |s| ==> IsDigit(s[i])
    decreases |s|
  {
    if s == [] then 0 else DecimalValue(s[..|s| - 1]) * 10 + DigitValue(s[|s| - 1])
  }

  /** Reading the digits back gives the number that was written. */
  lemma {:induction false} DecimalRoundTrip(n: nat)
    ensures DecimalValue(Decimal(n)) == n
    decreases n
  {
    if n >= 10 {
      var s := Decimal(n / 10) + [DigitChar(n % 10)];
      assert s[..|s| - 1] == Decimal(n / 10);
      DecimalRoundTrip(n / 10);
    }
  }

  /** `PAYMENT_RETURN_URL.format(campaign_pk)`: the template with the key's digits in its placeholder. */
  function ReturnUrl(template: UrlTemplate, campaignPk: nat): (url: string)
    ensures |url| == |template.prefix| + |Decimal(campaignPk)| + |template.suffix|
    ensures url[..|template.prefix|] == template.prefix
    ensures url[|url| - |template.suffix|..] == template.suffix
    ensures url[|template.prefix|..|url| - |template.suffix|] == Decimal(campaignPk)
  {
    template.prefix + Decimal(campaignPk) + template.suffix
  }

  /** The campaign key a return URL built from `template` carries, if it is one. */
  function CampaignPkOf(template: UrlTemplate, url: string): Option<nat> {
    var p, q := |template.prefix|, |template.suffix|;
    if |url| >= p + q && url[..p] == template.prefix && url[|url| - q..] == template.suffix
       && IsDecimal(url[p..|url| - q])
    then Some(DecimalValue(url[p..|url| - q]))
    else None
  }

  /** The return URL determines the campaign it was built for. */
  lemma ReturnUrlRoundTrip(template: UrlTemplate, campaignPk: nat)
    ensures CampaignPkOf(template, ReturnUrl(template, campaignPk)) == Some(campaignPk)
  {
    var url := ReturnUrl(template, campaignPk);
    var p, q := |template.prefix|, |template.suffix|;
    assert url[..p] == template.prefix;
    assert url[|url| - q..] == template.suffix;
    assert url[p..|url| - q] == Decimal(campaignPk);
    DecimalRoundTrip(campaignPk);
  }

  /** Different campaigns get different return URLs. */
  lemma ReturnUrlInjective(template: UrlTemplate, pk1: nat, pk2: nat)
    requires ReturnUrl(template, pk1) == ReturnUrl(template, pk2)
    ensures pk1 == pk2
  {
    ReturnUrlRoundTrip(template, pk1);
    ReturnUrlRoundTrip(template, pk2);
  }

  /**
   * The order body `create_ginger_transaction` posts: the amount it is given
   * (already in minor units), in euros, with the return URL for the campaign
   * and the campaign's submerchant key.
   */
  function CreateOrderBody(amount: int, description: string, template: UrlTemplate, campaignPk: nat,
                           submerchantId: string): (body: OrderBody)
    ensures body.currency == "EUR" && body.amount == amount && body.description == description
    ensures body.returnUrl == ReturnUrl(template, campaignPk)
    ensures CampaignPkOf(template, body.returnUrl) == Some(campaignPk)
    ensures body.submerchantId == submerchantId
  {
    ReturnUrlRoundTrip(template, campaignPk);
    OrderBody(Currency, amount, ReturnUrl(template, campaignPk), description, submerchantId)
  }

  /** `"Payment for {}".format(headline)`: a fixed lead-in followed by the whole headline. */
  function PaymentDescription(headline: string): (d: string)
    ensures |d| == 12 + |headline|
    ensures d[..12] == "Payment for " && d[12..] == headline
  {
    "Payment for " + headline
  }

  /** With the development setting, campaign 42 returns to its own `campaign_pk=42` page. */
  lemma DevReturnUrlExample()
    ensures ReturnUrl(DevReturnUrl, 42)
            == "http://localhost/crowdfunding/ginger_return_redirect/?campaign_pk=42"
  {
  }
}
