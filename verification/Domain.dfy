/**
  The quote aggregate of src/domain/model.rs: state, events, commands, the reducer, the command
  handler, and totals kept in 64-bit minor units.
*/
module Domain {
  import opened Wrappers

  const I64_MIN := -0x8000_0000_0000_0000
  const I64_MAX := 0x7FFF_FFFF_FFFF_FFFF
  const I128_MIN := -0x8000_0000_0000_0000_0000_0000_0000_0000
  const I128_MAX := 0x7FFF_FFFF_FFFF_FFFF_FFFF_FFFF_FFFF_FFFF
  const BPS_SCALE := 10_000
  const US_TAX_BPS: I64 := 800

  type I64 = x: int | I64_MIN <= x <= I64_MAX

  datatype DomainError =
    | QuoteAlreadyCreated
    | DuplicateCreateQuote
    | InvalidField(field: string)
    | QuoteNotCreated
    | QuoteAlreadyFinalized
    | DuplicateLineId
    | InvalidQuantity
    | InvalidUnitMinor
    | IntegerOverflow
    | CannotFinalizeWithoutLines

  datatype LineItem = LineItem(lineId: string, sku: string, description: string, quantity: I64, unitMinor: I64)

  datatype QuoteState =
    QuoteState(currencyCode: Option<string>, jurisdictionId: Option<string>, finalized: bool, lines: seq<LineItem>)
  {
    predicate IsCreated() {
      currencyCode.Some?
    }
  }

  const EMPTY_QUOTE := QuoteState(None, None, false, [])

  datatype Event =
    | QuoteCreated(currencyCode: string, jurisdictionId: string)
    | LineItemAdded(line: LineItem)
    | QuoteFinalized

  datatype Command =
    | CreateQuote(currencyCode: string, jurisdictionId: string)
    | AddLineItem(line: LineItem)
    | FinalizeQuote

  // ---------------------------------------------------------------- money

  predicate FitsI64(x: int) {
    I64_MIN <= x <= I64_MAX
  }

  function ToI64(x: int): Result<I64, DomainError> {
    if FitsI64(x) then Ok(x) else Err(IntegerOverflow)
  }

  /** Rust's integer division rounds toward zero. */
  function TruncDiv(x: int, d: int): int
    requires d > 0
  {
    if x >= 0 then x / d else -((-x) / d)
  }

  /** The exact line total, before it is narrowed to 64 bits. */
  function Amount(l: LineItem): int {
    l.quantity * l.unitMinor
  }

  function LineTotal(l: LineItem): Result<I64, DomainError> {
    ToI64(Amount(l))
  }

  /** The exact sum of the line totals. */
  function ExactSubtotal(lines: seq<LineItem>): int {
    if lines == [] then 0 else ExactSubtotal(lines[..|lines| - 1]) + Amount(lines[|lines| - 1])
  }

  predicate EveryLineFits(lines: seq<LineItem>) {
    forall i :: 0 <= i < |lines| ==> FitsI64(Amount(lines[i]))
  }

  function Subtotal(s: QuoteState): Result<I64, DomainError> {
    if EveryLineFits(s.lines) then ToI64(ExactSubtotal(s.lines)) else Err(IntegerOverflow)
  }

  function TaxRateBps(s: QuoteState): I64 {
    JurisdictionBps(if s.jurisdictionId.Some? then s.jurisdictionId.value else "")
  }

  function JurisdictionBps(jurisdictionId: string): I64 {
    if jurisdictionId == "US" || "US-" <= jurisdictionId then US_TAX_BPS else 0
  }

  function Tax(s: QuoteState): Result<I64, DomainError> {
    var sub :- Subtotal(s);
    ToI64(TruncDiv(sub * TaxRateBps(s), BPS_SCALE))
  }

  function Total(s: QuoteState): Result<I64, DomainError> {
    var sub :- Subtotal(s);
    var tax :- Tax(s);
    ToI64(sub + tax)
  }

  /** The summation loop: it stops at the first line whose own total overflows. */
  method SubtotalMinor(s: QuoteState) returns (r: Result<I64, DomainError>)
    ensures r == Subtotal(s)
  {
    var sum: int := 0;
    for i := 0 to |s.lines|
      invariant EveryLineFits(s.lines[..i])
      invariant sum == ExactSubtotal(s.lines[..i])
    {
      var lineTotal := LineTotal(s.lines[i]);
      if lineTotal.Err? {
        return Err(lineTotal.error);
      }
      sum := sum + lineTotal.value;
      assert s.lines[..i + 1][..i] == s.lines[..i];
    }
    assert s.lines[..|s.lines|] == s.lines;
    r := ToI64(sum);
  }

  // ---------------------------------------------------------------- reducer and command handler

  /** Unicode White_Space, which `str::trim` strips. */
  predicate IsWhitespace(c: char) {
    || '\t' <= c <= '\r'
    || c == ' '
    || c in {'\U{0085}', '\U{00A0}', '\U{1680}', '\U{2028}', '\U{2029}', '\U{202F}', '\U{205F}', '\U{3000}'}
    || '\U{2000}' <= c <= '\U{200A}'
  }

  predicate Blank(s: string) {
    forall i :: 0 <= i < |s| ==> IsWhitespace(s[i])
  }

  predicate HasLineId(lines: seq<LineItem>, id: string) {
    exists i :: 0 <= i < |lines| && lines[i].lineId == id
  }

  function Reduce(s: QuoteState, e: Event): Result<QuoteState, DomainError> {
    match e
    case QuoteCreated(currency, jurisdiction) =>
      if s.IsCreated() then Err(QuoteAlreadyCreated)
      else Ok(QuoteState(Some(currency), Some(jurisdiction), s.finalized, []))
    case LineItemAdded(line) =>
      if !s.IsCreated() then Err(QuoteNotCreated)
      else if s.finalized then Err(QuoteAlreadyFinalized)
      else if HasLineId(s.lines, line.lineId) then Err(DuplicateLineId)
      else Ok(s.(lines := s.lines + [line]))
    case QuoteFinalized =>
      if !s.IsCreated() then Err(QuoteNotCreated)
      else if s.finalized then Err(QuoteAlreadyFinalized)
      else Ok(s.(finalized := true))
  }

  function CommandToEvents(s: QuoteState, c: Command): Result<seq<Event>, DomainError> {
    match c
    case CreateQuote(currency, jurisdiction) =>
      if s.IsCreated() then Err(DuplicateCreateQuote)
      else if Blank(currency) then Err(InvalidField("currency_code"))
      else if Blank(jurisdiction) then Err(InvalidField("jurisdiction_id"))
      else Ok([QuoteCreated(currency, jurisdiction)])
    case AddLineItem(line) =>
      if !s.IsCreated() then Err(QuoteNotCreated)
      else if s.finalized then Err(QuoteAlreadyFinalized)
      else if Blank(line.lineId) then Err(InvalidField("line_id"))
      else if Blank(line.sku) then Err(InvalidField("sku"))
      else if Blank(line.description) then Err(InvalidField("description"))
      else if line.quantity <= 0 then Err(InvalidQuantity)
      else if line.unitMinor < 0 then Err(InvalidUnitMinor)
      else if HasLineId(s.lines, line.lineId) then Err(DuplicateLineId)
      else
        // the overflow probe: the line's own total, then the quote's total with the line added
        var _ :- LineTotal(line);
        var _ :- Total(s.(lines := s.lines + [line]));
        Ok([LineItemAdded(line)])
    case FinalizeQuote =>
      if !s.IsCreated() then Err(QuoteNotCreated)
      else if s.finalized then Err(QuoteAlreadyFinalized)
      else if s.lines == [] then Err(CannotFinalizeWithoutLines)
      else Ok([QuoteFinalized])
  }

  // Why a command is refused.

  /** The defect an error names, whatever the handler looks at first. */
  predicate HasDefect(s: QuoteState, c: Command, e: DomainError) {
    match e
    case DuplicateCreateQuote => c.CreateQuote? && s.IsCreated()
    case QuoteNotCreated => !c.CreateQuote? && !s.IsCreated()
    case QuoteAlreadyFinalized => !c.CreateQuote? && s.finalized
    case CannotFinalizeWithoutLines => c.FinalizeQuote? && s.lines == []
    case DuplicateLineId => c.AddLineItem? && HasLineId(s.lines, c.line.lineId)
    case InvalidQuantity => c.AddLineItem? && c.line.quantity <= 0
    case InvalidUnitMinor => c.AddLineItem? && c.line.unitMinor < 0
    case IntegerOverflow =>
      && c.AddLineItem?
      && (!FitsI64(Amount(c.line)) || Total(s.(lines := s.lines + [c.line])).Err?)
    case InvalidField(field) => TextMissing(c, field)
    case QuoteAlreadyCreated => false
  }

  /** Some character of the string is not whitespace. */
  predicate HasText(s: string) {
    exists i :: 0 <= i < |s| && !IsWhitespace(s[i])
  }

  lemma BlankHasNoText(s: string)
    ensures Blank(s) <==> !HasText(s)
  {
  }

  predicate TextMissing(c: Command, field: string) {
    match c
    case CreateQuote(currency, jurisdiction) =>
      (field == "currency_code" && !HasText(currency)) || (field == "jurisdiction_id" && !HasText(jurisdiction))
    case AddLineItem(line) =>
      || (field == "line_id" && !HasText(line.lineId))
      || (field == "sku" && !HasText(line.sku))
      || (field == "description" && !HasText(line.description))
    case FinalizeQuote => false
  }

  /** The handler's order of precedence among defects. */
  function Precedence(e: DomainError): nat {
    match e
    case QuoteAlreadyCreated => 0
    case DuplicateCreateQuote => 1
    case QuoteNotCreated => 2
    case QuoteAlreadyFinalized => 3
    case InvalidField(field) =>
      if field == "currency_code" || field == "line_id" then 4
      else if field == "jurisdiction_id" || field == "sku" then 5
      else 6
    case InvalidQuantity => 7
    case InvalidUnitMinor => 8
    case DuplicateLineId => 9
    case IntegerOverflow => 10
    case CannotFinalizeWithoutLines => 11
  }

  /**
    A command is refused if and only if it has some defect, and the error returned is the one of its defects
    that comes first in the order of precedence.
  */
  lemma RefusedForADefect(s: QuoteState, c: Command)
    ensures CommandToEvents(s, c).Err? <==> exists e :: HasDefect(s, c, e)
    ensures CommandToEvents(s, c).Err? ==> HasDefect(s, c, CommandToEvents(s, c).error)
    ensures CommandToEvents(s, c).Err? ==>
              forall e :: HasDefect(s, c, e) && e != CommandToEvents(s, c).error ==>
                Precedence(CommandToEvents(s, c).error) < Precedence(e)
  {
    hide Total, HasLineId;
    TotalErrorIsOverflow(s);
    if c.AddLineItem? {
      TotalErrorIsOverflow(s.(lines := s.lines + [c.line]));
    }
    if CommandToEvents(s, c).Err? {
      assert HasDefect(s, c, CommandToEvents(s, c).error);
    }
  }

  lemma TotalErrorIsOverflow(s: QuoteState)
    ensures Total(s).Err? ==> Total(s) == Err(IntegerOverflow)
  {
  }

  /** The 25 code points with the Unicode property White_Space. */
  lemma WhitespaceIsUnicodeWhitespace(c: char)
    ensures IsWhitespace(c) <==>
            (c as int) in {
              0x9, 0xA, 0xB, 0xC, 0xD, 0x20, 0x85, 0xA0, 0x1680,
              0x2000, 0x2001, 0x2002, 0x2003, 0x2004, 0x2005, 0x2006, 0x2007, 0x2008, 0x2009, 0x200A,
              0x2028, 0x2029, 0x202F, 0x205F, 0x3000}
  {
  }

  /**
    A quote can be created exactly once, with a currency and a jurisdiction that each have some text; the
    first of the two that has none is the one named in the error.
  */
  lemma CreateNeedsText(s: QuoteState, currency: string, jurisdiction: string)
    requires !s.IsCreated()
    ensures CommandToEvents(s, CreateQuote(currency, jurisdiction)).Ok? <==> HasText(currency) && HasText(jurisdiction)
    ensures !HasText(currency) ==>
              CommandToEvents(s, CreateQuote(currency, jurisdiction)) == Err(InvalidField("currency_code"))
    ensures HasText(currency) && !HasText(jurisdiction) ==>
              CommandToEvents(s, CreateQuote(currency, jurisdiction)) == Err(InvalidField("jurisdiction_id"))
  {
  }

  /** On an open quote a line is refused for the first of its text fields that has no text, if there is one. */
  lemma LineNeedsText(s: QuoteState, line: LineItem)
    requires s.IsCreated() && !s.finalized
    ensures CommandToEvents(s, AddLineItem(line)).Ok? ==>
              HasText(line.lineId) && HasText(line.sku) && HasText(line.description)
    ensures !HasText(line.lineId) ==> CommandToEvents(s, AddLineItem(line)) == Err(InvalidField("line_id"))
    ensures HasText(line.lineId) && !HasText(line.sku) ==>
              CommandToEvents(s, AddLineItem(line)) == Err(InvalidField("sku"))
    ensures HasText(line.lineId) && HasText(line.sku) && !HasText(line.description) ==>
              CommandToEvents(s, AddLineItem(line)) == Err(InvalidField("description"))
    ensures HasText(line.lineId) && HasText(line.sku) && HasText(line.description) ==>
              !CommandToEvents(s, AddLineItem(line)).Err? || !CommandToEvents(s, AddLineItem(line)).error.InvalidField?
  {
    hide Total, HasLineId;
    TotalErrorIsOverflow(s.(lines := s.lines + [line]));
  }

  /** At a concrete input: a currency of two spaces. */
  lemma BlankCurrencyIsRefused()
    ensures CommandToEvents(EMPTY_QUOTE, CreateQuote("  ", "US")) == Err(InvalidField("currency_code"))
  {
  }

  // Every accepted command is recorded by one event, and the two determine each other.

  function EventOf(c: Command): Event {
    match c
    case CreateQuote(currency, jurisdiction) => QuoteCreated(currency, jurisdiction)
    case AddLineItem(line) => LineItemAdded(line)
    case FinalizeQuote => QuoteFinalized
  }

  function CommandOf(e: Event): Command {
    match e
    case QuoteCreated(currency, jurisdiction) => CreateQuote(currency, jurisdiction)
    case LineItemAdded(line) => AddLineItem(line)
    case QuoteFinalized => FinalizeQuote
  }

  lemma AcceptedCommandIsItsEvent(s: QuoteState, c: Command)
    ensures CommandToEvents(s, c).Ok? ==> CommandToEvents(s, c).value == [EventOf(c)]
    ensures CommandOf(EventOf(c)) == c
    ensures c.CreateQuote? ==> EventOf(c) == QuoteCreated(c.currencyCode, c.jurisdictionId)
    ensures c.AddLineItem? ==> EventOf(c) == LineItemAdded(c.line)
    ensures c.FinalizeQuote? ==> EventOf(c) == QuoteFinalized
    ensures forall c': Command :: EventOf(c) == EventOf(c') ==> c == c'
  {
  }

  /** The handler is at least as strict as the reducer: an accepted command's event always applies. */
  lemma AcceptedEventReduces(s: QuoteState, c: Command)
    requires CommandToEvents(s, c).Ok?
    ensures Reduce(s, EventOf(c)).Ok?
  {
  }
}
