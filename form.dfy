/**
 * `collectPayload`: clears every error mark, checks each required field on
 * its own (so every failing field is marked in one pass), collects the
 * checked templates in order, and builds the trade payload only when no check
 * failed.
 */
module Form {
  import opened Wrappers
  import opened Text
  import opened NumberParser
  import opened Calculator

  datatype MarginMode = Cross | Isolated

  /** The fields that can be marked as invalid. */
  datatype Field = Symbol | Entry | Exit | Margin | Templates

  /** A template checkbox: its `value` attribute and whether it is checked. */
  datatype Checkbox = Checkbox(value: string, checked: bool)

  /**
   * What the form shows when the payload is collected: the raw text of each
   * input, the leverage slider as an integer, the template checkboxes in page
   * order, and the account-balance input (`None` when the page has no such input).
   */
  datatype FormInput = FormInput(
    symbol: string, entry: string, exit: string, margin: string, leverage: int,
    templates: seq<Checkbox>, balance: Option<string>)

  /** The trade payload; `accountBalance` is `None` when the key is absent. */
  datatype Payload = Payload(
    symbol: string, direction: Direction, leverage: int,
    entryPrice: real, exitPrice: real, margin: real, marginMode: MarginMode,
    selectedTemplates: seq<string>, accountBalance: Option<real>)

  /** `symbolInput.value.trim().toUpperCase()` */
  function NormalizeSymbol(s: string): string {
    ToUpper(Trim(s))
  }

  /** The values of the checked boxes, in page order. */
  function CheckedValues(cbs: seq<Checkbox>): seq<string> {
    if cbs == [] then []
    else
      var last := cbs[|cbs| - 1];
      CheckedValues(cbs[..|cbs| - 1]) + (if last.checked then [last.value] else [])
  }

  /**
   * The values `collectPayload` works with once it has read the form: the
   * normalised symbol, the three parsed numbers, the slider, the collected
   * template values, and the text of the balance input (`None` when the page
   * has no such input).
   */
  datatype Reading = Reading(
    symbol: string, entry: Option<real>, exit: Option<real>, margin: Option<real>,
    leverage: int, selected: seq<string>, balance: Option<string>)

  function Read(form: FormInput): Reading {
    Reading(NormalizeSymbol(form.symbol), ParseNum(form.entry), ParseNum(form.exit),
            ParseNum(form.margin), form.leverage, CheckedValues(form.templates), form.balance)
  }

  /** Whether the check of field `f` fails. */
  predicate Fails(f: Field, r: Reading) {
    match f
    case Symbol => r.symbol == ""
    case Entry => !IsPositive(r.entry)
    case Exit => !IsPositive(r.exit)
    case Margin => !IsPositive(r.margin)
    case Templates => r.selected == []
  }

  /** The fields marked invalid after one validation pass: exactly the failing ones. */
  function FailedFields(r: Reading): (fs: set<Field>)
    ensures forall f :: f in fs <==> Fails(f, r)
  {
    (if Fails(Symbol, r) then {Symbol} else {})
    + (if Fails(Entry, r) then {Entry} else {})
    + (if Fails(Exit, r) then {Exit} else {})
    + (if Fails(Margin, r) then {Margin} else {})
    + (if Fails(Templates, r) then {Templates} else {})
  }

  /** `account_balance`: present only in Cross mode with a positive parsed balance. */
  function AccountBalance(balance: Option<string>, mode: MarginMode): Option<real> {
    if mode == Cross && balance.Some? && IsPositive(ParseNum(balance.value))
    then ParseNum(balance.value)
    else None
  }

  /** The result of `collectPayload`: `None` (null) when any field fails. */
  function Validated(r: Reading, direction: Direction, mode: MarginMode): Option<Payload> {
    if FailedFields(r) != {} then None
    else Some(Payload(r.symbol, direction, r.leverage, r.entry.value, r.exit.value, r.margin.value,
                      mode, r.selected, AccountBalance(r.balance, mode)))
  }

  /** The loop of `collectPayload` that pushes the value of every checked box. */
  method CollectTemplates(cbs: seq<Checkbox>) returns (selected: seq<string>)
    ensures selected == CheckedValues(cbs)
  {
    selected := [];
    var i := 0;
    while i < |cbs|
      invariant 0 <= i <= |cbs|
      invariant selected == CheckedValues(cbs[..i])
    {
      assert cbs[..i + 1][..i] == cbs[..i];
      if cbs[i].checked {
        selected := selected + [cbs[i].value];
      }
      i := i + 1;
    }
    assert cbs[..i] == cbs;
  }

  /**
   * The checks of `collectPayload`, one after the other and none skipped: the
   * marks start empty (all errors cleared) and each failing check adds its
   * field and clears `valid`.
   */
  method MarkFailures(r: Reading) returns (marks: set<Field>, valid: bool)
    ensures marks == FailedFields(r)
    ensures valid <==> marks == {}
  {
    marks := {};
    valid := true;
    if r.symbol == "" { marks := marks + {Symbol}; valid := false; }
    if IsFalsy(r.entry) || r.entry.value <= 0.0 { marks := marks + {Entry}; valid := false; }
    if IsFalsy(r.exit) || r.exit.value <= 0.0 { marks := marks + {Exit}; valid := false; }
    if IsFalsy(r.margin) || r.margin.value <= 0.0 { marks := marks + {Margin}; valid := false; }
    if |r.selected| == 0 { marks := marks + {Templates}; valid := false; }
  }

  /**
   * `collectPayload`: read and normalise the fields, mark every failing one,
   * return null when any failed, and otherwise build the payload, adding
   * `account_balance` only in Cross mode with a positive balance.
   */
  method CollectPayload(form: FormInput, direction: Direction, mode: MarginMode)
    returns (marks: set<Field>, payload: Option<Payload>)
    ensures marks == FailedFields(Read(form))
    ensures payload == Validated(Read(form), direction, mode)
  {
    var symbol := NormalizeSymbol(form.symbol);
    var entry := ParseNum(form.entry);
    var exit := ParseNum(form.exit);
    var mg := ParseNum(form.margin);
    var selected := CollectTemplates(form.templates);
    var r := Reading(symbol, entry, exit, mg, form.leverage, selected, form.balance);
    var valid;
    marks, valid := MarkFailures(r);
    if !valid {
      payload := None;
      return;
    }
    var balance := ReadBalance(form.balance, mode);
    payload := Some(Payload(symbol, direction, form.leverage, entry.value, exit.value, mg.value,
                            mode, selected, balance));
  }

  /**
   * The optional balance step of `collectPayload`: the balance field is read
   * only in Cross mode, and kept only when it parses to a positive number.
   */
  method ReadBalance(field: Option<string>, mode: MarginMode) returns (balance: Option<real>)
    ensures balance == AccountBalance(field, mode)
    ensures balance.Some? ==> balance.value > 0.0 && mode == Cross
  {
    balance := None;
    if mode == Cross && field.Some? {
      var bal := ParseNum(field.value);
      if !IsFalsy(bal) && bal.value > 0.0 { balance := bal; }
    }
  }

  /** Collecting from two runs of checkboxes is collecting from each, in order. */
  lemma {:induction false} CheckedValuesAppend(a: seq<Checkbox>, b: seq<Checkbox>)
    ensures CheckedValues(a + b) == CheckedValues(a) + CheckedValues(b)
  {
    if b == [] {
      assert a + b == a;
    } else {
      var b' := b[..|b| - 1];
      assert (a + b)[..|a + b| - 1] == a + b';
      CheckedValuesAppend(a, b');
    }
  }

  /** The collected values are exactly the values of checked boxes. */
  lemma {:induction false} CheckedValuesMembers(cbs: seq<Checkbox>, v: string)
    ensures v in CheckedValues(cbs) <==> exists i :: 0 <= i < |cbs| && cbs[i].checked && cbs[i].value == v
  {
    if cbs != [] {
      var init := cbs[..|cbs| - 1];
      CheckedValuesMembers(init, v);
      if exists i :: 0 <= i < |cbs| && cbs[i].checked && cbs[i].value == v {
        var i :| 0 <= i < |cbs| && cbs[i].checked && cbs[i].value == v;
        if i < |init| {
          assert init[i] == cbs[i];
        }
      }
      if v in CheckedValues(init) {
        var i :| 0 <= i < |init| && init[i].checked && init[i].value == v;
        assert cbs[i] == init[i];
      }
    }
  }

  /** Nothing is collected exactly when no box is checked. */
  lemma {:induction false} CheckedValuesEmptyIff(cbs: seq<Checkbox>)
    ensures CheckedValues(cbs) == [] <==> forall i :: 0 <= i < |cbs| ==> !cbs[i].checked
  {
    if cbs != [] {
      var init := cbs[..|cbs| - 1];
      CheckedValuesEmptyIff(init);
      if forall i :: 0 <= i < |cbs| ==> !cbs[i].checked {
        assert forall i :: 0 <= i < |init| ==> init[i] == cbs[i];
      }
    }
  }

  /** A space maps to a space and nothing else does under the upper-case map. */
  lemma UpperKeepsSpace(c: char)
    ensures IsSpace(UpperChar(c)) <==> IsSpace(c)
  {
  }

  /** The symbol check fails exactly when the input holds nothing but white space. */
  lemma SymbolEmptyIff(s: string)
    ensures NormalizeSymbol(s) == "" <==> AllSpace(s)
  {
    TrimEmptyIff(s);
  }

  /**
   * The form is accepted exactly when the symbol has a non-space character,
   * entry, exit and margin parse to positive numbers, and some template box
   * is checked.
   */
  lemma ValidatedIff(form: FormInput, direction: Direction, mode: MarginMode)
    ensures Validated(Read(form), direction, mode).Some? <==>
      && !AllSpace(form.symbol)
      && IsPositive(ParseNum(form.entry)) && IsPositive(ParseNum(form.exit)) && IsPositive(ParseNum(form.margin))
      && exists i :: 0 <= i < |form.templates| && form.templates[i].checked
  {
    var r := Read(form);
    SymbolEmptyIff(form.symbol);
    CheckedValuesEmptyIff(form.templates);
    AcceptedIffNoFailure(r, direction, mode);
  }

  lemma AcceptedIffNoFailure(r: Reading, direction: Direction, mode: MarginMode)
    ensures Validated(r, direction, mode).Some? <==>
      r.symbol != "" && IsPositive(r.entry) && IsPositive(r.exit) && IsPositive(r.margin) && r.selected != []
  {
    assert Fails(Symbol, r) ==> Symbol in FailedFields(r);
    assert Fails(Entry, r) ==> Entry in FailedFields(r);
    assert Fails(Exit, r) ==> Exit in FailedFields(r);
    assert Fails(Margin, r) ==> Margin in FailedFields(r);
    assert Fails(Templates, r) ==> Templates in FailedFields(r);
  }

  /**
   * What an accepted payload holds: the trimmed upper-cased symbol (non-empty,
   * no lower-case ASCII letter, no white space at either end), the parsed
   * prices and margin (all positive), the checked template values in order,
   * and `account_balance` exactly in Cross mode with a positive balance.
   */
  lemma PayloadFacts(form: FormInput, direction: Direction, mode: MarginMode, p: Payload)
    requires Validated(Read(form), direction, mode) == Some(p)
    ensures p.symbol == ToUpper(Trim(form.symbol)) && p.symbol != ""
    ensures forall k :: 0 <= k < |p.symbol| ==> !('a' <= p.symbol[k] <= 'z')
    ensures !IsSpace(p.symbol[0]) && !IsSpace(p.symbol[|p.symbol| - 1])
    ensures p.direction == direction && p.leverage == form.leverage && p.marginMode == mode
    ensures Some(p.entryPrice) == ParseNum(form.entry) && p.entryPrice > 0.0
    ensures Some(p.exitPrice) == ParseNum(form.exit) && p.exitPrice > 0.0
    ensures Some(p.margin) == ParseNum(form.margin) && p.margin > 0.0
    ensures p.selectedTemplates == CheckedValues(form.templates) && p.selectedTemplates != []
    ensures p.accountBalance.Some? <==>
      mode == Cross && form.balance.Some? && IsPositive(ParseNum(form.balance.value))
    ensures p.accountBalance.Some? ==>
      p.accountBalance == ParseNum(form.balance.value) && p.accountBalance.value > 0.0
  {
    var r := Read(form);
    AcceptedIffNoFailure(r, direction, mode);
    assert p.symbol == r.symbol && p.selectedTemplates == r.selected;
    assert p.accountBalance == AccountBalance(form.balance, mode);
    SymbolShape(form.symbol);
  }

  /** A non-empty normalised symbol has no lower-case ASCII letter and no white space at its ends. */
  lemma SymbolShape(s: string)
    requires NormalizeSymbol(s) != ""
    ensures var u := NormalizeSymbol(s);
      && (forall k :: 0 <= k < |u| ==> !('a' <= u[k] <= 'z'))
      && !IsSpace(u[0]) && !IsSpace(u[|u| - 1])
  {
    TrimmedEnds(s);
    var t := Trim(s);
    UpperKeepsSpace(t[0]);
    UpperKeepsSpace(t[|t| - 1]);
  }

  /**
   * Every failing field is reported in the same pass: a blank symbol, a
   * negative entry price and no checked template give all three marks, and
   * no payload.
   */
  lemma AllFailuresReported(direction: Direction, mode: MarginMode)
    ensures var r := Reading("", Some(-5.0), Some(110.0), Some(10.0), 5, [], None);
      FailedFields(r) == {Symbol, Entry, Templates} && Validated(r, direction, mode) == None
  {
    var r := Reading("", Some(-5.0), Some(110.0), Some(10.0), 5, [], None);
    assert Fails(Symbol, r) && Fails(Entry, r) && Fails(Templates, r);
    assert !Fails(Exit, r) && !Fails(Margin, r);
  }

  /** A blank symbol and a negative entry are read as an empty symbol and a negative number. */
  lemma ExampleReadings()
    ensures NormalizeSymbol("  ") == ""
    ensures ParseNum("-5") == Some(-5.0)
  {
    SymbolEmptyIff("  ");
    ParseNumNegative("5");
    assert DigitsValue("5") == 5 by { assert "5"[..0] == ""; }
  }
}
