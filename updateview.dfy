/** The detail pane of the terminal view (updateview.go): which price is
    shown, the figures of the selected holding and the colour of its gains.
    The pane's text views are fields holding the figure each shows (cost
    figures shown negated, as the pane prints them); their formatting is
    not modelled. The holding's quantity, purchase costs and dividend
    figures are inputs, as the view receives them from the stock. */
module UpdateView {
  import opened Base
  import Valuation
  import Util
  import Yahoo

  /** The text colours the pane uses; `Primary` is a text view's colour
      before any is set. */
  datatype TColor = Primary | ColorRed | ColorGreen

  /** colorForAmount: red for a loss, green otherwise, zero included. */
  function ColorForAmount(amount: real): (c: TColor)
    ensures c == ColorRed <==> amount < 0.0
    ensures c == ColorGreen <==> amount >= 0.0
  {
    if amount < 0.0 then ColorRed else ColorGreen
  }

  /** Which price is shown; `Label` is the text printed beside it. */
  datatype PriceKind = Bid | Reg

  function Label(kind: PriceKind): (text: string)
    ensures text == "Bid" <==> kind == Bid
    ensures text == "Reg" <==> kind == Reg
  {
    match kind
    case Bid => "Bid"
    case Reg => "Reg"
  }

  /** The price shown and its kind: the bid, or the regular market price
      when there is no bid. */
  function SelectPrice(q: Yahoo.Quote): (r: (real, PriceKind))
    ensures r.1 == Bid <==> q.bid != 0.0
    ensures r.1 == Bid ==> r.0 == q.bid
    ensures r.1 == Reg ==> r.0 == q.regularMarketPrice
  {
    if q.bid == 0.0 then (q.regularMarketPrice, Reg) else (q.bid, Bid)
  }

  /** A zero price is shown only when the quote has neither a bid nor a
      regular market price. */
  lemma ShownPriceIsZeroOnlyWithoutPrices(q: Yahoo.Quote)
    ensures SelectPrice(q).0 == 0.0 <==> q.bid == 0.0 && q.regularMarketPrice == 0.0
  {
  }

  /** The stock's purchase figures: the price paid, the fees, the
      provisions and the total cost. */
  datatype Kaufkosten = Kaufkosten(kauf: real, fees: real, provisions: real, kosten: real)

  /** The stock's dividend figures: the amount received and the four taxes
      withheld from it. */
  datatype Dividenden = Dividenden(
    dividenden: real,
    quellensteuer: real,
    kapitalertragsteuer: real,
    solidaritaetszuschlag: real,
    kirchensteuer: real)

  function Taxes(d: Dividenden): real {
    d.quellensteuer + d.kapitalertragsteuer + d.solidaritaetszuschlag + d.kirchensteuer
  }

  /** The total gain: the value less the total cost, plus the dividends
      less every tax withheld. */
  function TotalGain(wert: real, k: Kaufkosten, d: Dividenden): (guv: real)
    ensures guv == wert - k.kosten + (d.dividenden - Taxes(d))
  {
    wert - k.kosten + d.dividenden - d.quellensteuer - d.kapitalertragsteuer - d.solidaritaetszuschlag - d.kirchensteuer
  }

  /** When the total cost is the price paid plus fees and provisions, the
      total gain is the price gain, less fees and provisions, plus the net
      dividends. */
  lemma TotalGainDecomposes(wert: real, k: Kaufkosten, d: Dividenden)
    requires k.kosten == k.kauf + k.fees + k.provisions
    ensures TotalGain(wert, k, d) == (wert - k.kauf) - k.fees - k.provisions + (d.dividenden - Taxes(d))
  {
  }

  /** The price-gain percentage is positive exactly when the value exceeds
      the total cost. */
  lemma PriceGainPercentSign(wert: real, k: Kaufkosten)
    requires k.kosten > 0.0
    ensures Valuation.Percent(wert, k.kosten).Some?
    ensures Valuation.Percent(wert, k.kosten).value > 0.0 <==> wert > k.kosten
  {
    Valuation.PercentMeaning(wert, k.kosten);
  }

  /** The price gain is measured against the price paid and its percentage
      against the total cost, so with fees a gain shown green can carry a
      negative percentage: paid 100, cost 110, worth 105. */
  lemma PriceGainAndPercentCanDisagree()
    ensures var k := Kaufkosten(100.0, 4.0, 6.0, 110.0);
      && ColorForAmount(105.0 - k.kauf) == ColorGreen
      && Valuation.Percent(105.0, k.kosten).Some?
      && Valuation.Percent(105.0, k.kosten).value < 0.0
  {
    var k := Kaufkosten(100.0, 4.0, 6.0, 110.0);
    PriceGainPercentSign(105.0, k);
  }

  /** What the detail pane shows, one component per text view. */
  datatype Pane = Pane(
    name: string, symbol: string, wkn: string, isin: string,
    kurs: real, kursType: string, currency: string,
    stueck: real, wert: real, kauf: real,
    guvKurs: real, guvKursPercent: Option<real>, guvKursColor: TColor,
    fees: real, provisions: real,
    amount: real, quellensteuer: real, kapitalertragsteuer: real,
    solidaritaetszuschlag: real, kirchensteuer: real,
    guv: real, guvColor: TColor)

  /** The pane updateView fills for an entry: the shown price, the value at
      that price, the price gain against the price paid with its percentage
      against the total cost, costs and taxes shown negated, and the total
      gain; both gains coloured by their sign. */
  function PaneFor(entry: Util.Entry, stueck: real, k: Kaufkosten, d: Dividenden): Pane {
    var (kurs, kind) := SelectPrice(entry.result);
    var wert := stueck * kurs;
    var guvKurs := wert - k.kauf;
    var guv := TotalGain(wert, k, d);
    Pane(entry.stock.name, entry.result.symbol, entry.stock.wkn, entry.stock.isin,
         kurs, Label(kind), entry.result.currency,
         stueck, wert, -k.kauf,
         guvKurs, Valuation.Percent(wert, k.kosten), ColorForAmount(guvKurs),
         -k.fees, -k.provisions,
         d.dividenden, -d.quellensteuer, -d.kapitalertragsteuer,
         -d.solidaritaetszuschlag, -d.kirchensteuer,
         guv, ColorForAmount(guv))
  }

  /** What a filled pane shows holds together: the value is quantity times
      price, the price gain is the value plus the (negated) price paid, and
      each gain is coloured by its sign. */
  predicate Consistent(p: Pane) {
    && p.wert == p.stueck * p.kurs
    && p.guvKurs == p.wert + p.kauf
    && p.guvKursColor == ColorForAmount(p.guvKurs)
    && p.guvColor == ColorForAmount(p.guv)
  }

  /** The pane for an entry shows the entry's stock and quote, the shown
      price chosen as SelectPrice chooses it, and consistent figures; the
      total gain adds the net dividends to the value less the total cost. */
  lemma PaneForShowsEntry(entry: Util.Entry, stueck: real, k: Kaufkosten, d: Dividenden)
    ensures var p := PaneFor(entry, stueck, k, d);
      && p.name == entry.stock.name && p.symbol == entry.result.symbol
      && p.wkn == entry.stock.wkn && p.isin == entry.stock.isin
      && p.currency == entry.result.currency && p.stueck == stueck
      && p.kurs == SelectPrice(entry.result).0
      && p.kursType == Label(SelectPrice(entry.result).1)
      && (p.kursType == "Bid" <==> entry.result.bid != 0.0)
      && p.kauf == -k.kauf && p.fees == -k.fees && p.provisions == -k.provisions
      && p.amount == d.dividenden
      && p.quellensteuer == -d.quellensteuer && p.kapitalertragsteuer == -d.kapitalertragsteuer
      && p.solidaritaetszuschlag == -d.solidaritaetszuschlag && p.kirchensteuer == -d.kirchensteuer
      && p.guvKursPercent == Valuation.Percent(p.wert, k.kosten)
      && p.guv == p.wert - k.kosten + (d.dividenden - Taxes(d))
      && Consistent(p)
  {
  }

  /** The detail pane: one field per text view. */
  class View {
    var name: string
    var symbol: string
    var wkn: string
    var isin: string
    var kurs: real
    var kursType: string
    var currency: string
    var stueck: real
    var wert: real
    var kauf: real
    var guvKurs: real
    var guvKursPercent: Option<real>
    var guvKursColor: TColor
    var fees: real
    var provisions: real
    var amount: real
    var quellensteuer: real
    var kapitalertragsteuer: real
    var solidaritaetszuschlag: real
    var kirchensteuer: real
    var guv: real
    var guvColor: TColor

    /** What the text views currently show. */
    function Shows(): Pane
      reads this
    {
      Pane(name, symbol, wkn, isin, kurs, kursType, currency, stueck, wert, kauf,
           guvKurs, guvKursPercent, guvKursColor, fees, provisions,
           amount, quellensteuer, kapitalertragsteuer, solidaritaetszuschlag, kirchensteuer,
           guv, guvColor)
    }

    /** NewView: every text view empty, in its default colour. The text
        views hold no text until the first update; the zero figures and the
        absent percentage here are placeholders for "nothing shown". */
    constructor ()
      ensures Shows() == Pane("", "", "", "", 0.0, "", "", 0.0, 0.0, 0.0, 0.0, None, Primary,
                              0.0, 0.0, 0.0, 0.0, 0.0, 0.0, 0.0, 0.0, Primary)
    {
      name, symbol, wkn, isin, currency := "", "", "", "", "";
      kursType := "";
      kurs, stueck, wert, kauf, guvKurs, guvKursPercent := 0.0, 0.0, 0.0, 0.0, 0.0, None;
      fees, provisions, amount, guv := 0.0, 0.0, 0.0, 0.0;
      quellensteuer, kapitalertragsteuer, solidaritaetszuschlag, kirchensteuer := 0.0, 0.0, 0.0, 0.0;
      guvKursColor, guvColor := Primary, Primary;
    }

    /** The stock's header lines: name, symbol, WKN, ISIN and the shown
        price with its currency and kind. */
    method ShowStock(p: Pane)
      modifies this`name, this`symbol, this`wkn, this`isin, this`kurs, this`kursType, this`currency
      ensures name == p.name && symbol == p.symbol && wkn == p.wkn && isin == p.isin
      ensures kurs == p.kurs && kursType == p.kursType && currency == p.currency
    {
      name, symbol, isin, wkn := p.name, p.symbol, p.isin, p.wkn;
      kurs, kursType, currency := p.kurs, p.kursType, p.currency;
    }

    /** The position lines: quantity, value, price paid, price gain with its
        percentage and colour, fees and provisions. */
    method ShowPosition(p: Pane)
      modifies this`stueck, this`wert, this`kauf, this`guvKurs, this`guvKursPercent, this`guvKursColor,
        this`fees, this`provisions
      ensures stueck == p.stueck && wert == p.wert && kauf == p.kauf
      ensures guvKurs == p.guvKurs && guvKursPercent == p.guvKursPercent && guvKursColor == p.guvKursColor
      ensures fees == p.fees && provisions == p.provisions
    {
      stueck, wert, kauf := p.stueck, p.wert, p.kauf;
      guvKurs, guvKursPercent, guvKursColor := p.guvKurs, p.guvKursPercent, p.guvKursColor;
      fees, provisions := p.fees, p.provisions;
    }

    /** The dividend lines and the total gain with its colour. */
    method ShowDividends(p: Pane)
      modifies this`amount, this`quellensteuer, this`kapitalertragsteuer, this`solidaritaetszuschlag,
        this`kirchensteuer, this`guv, this`guvColor
      ensures amount == p.amount && quellensteuer == p.quellensteuer && kapitalertragsteuer == p.kapitalertragsteuer
      ensures solidaritaetszuschlag == p.solidaritaetszuschlag && kirchensteuer == p.kirchensteuer
      ensures guv == p.guv && guvColor == p.guvColor
    {
      amount, quellensteuer, kapitalertragsteuer := p.amount, p.quellensteuer, p.kapitalertragsteuer;
      solidaritaetszuschlag, kirchensteuer := p.solidaritaetszuschlag, p.kirchensteuer;
      guv, guvColor := p.guv, p.guvColor;
    }

    /** updateView: fills every text view with the entry's figures, so
        that the pane shows PaneFor of the entry and is consistent. */
    method UpdateView(entry: Util.Entry, stueck: real, kaufkosten: Kaufkosten, dividenden: Dividenden)
      modifies this
      ensures Shows() == PaneFor(entry, stueck, kaufkosten, dividenden)
      ensures Consistent(Shows())
    {
      var shown := PaneFor(entry, stueck, kaufkosten, dividenden);
      ShowStock(shown);
      ShowPosition(shown);
      ShowDividends(shown);
      PaneForShowsEntry(entry, stueck, kaufkosten, dividenden);
    }
  }
}
