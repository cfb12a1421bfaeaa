/**
 * The add-inventory form: the ingredient picker, a production date that
 * defaults to today, the expiry preview and the submit guards. The
 * ingredient catalogue is the component's property and is passed in.
 */
module AddInventory {
  import opened Wrappers
  import opened Strings
  import opened Seqs
  import opened Calendar
  import opened Types
  import MenuApp

  /** The message of the RangeError `toISOString` throws for an invalid date. */
  const InvalidTimeValue: string := "Invalid time value"

  /** A day number inside the range of ECMAScript time values (inclusive). */
  predicate InTimeRange(day: int) {
    -MaxTimeDays <= day <= MaxTimeDays
  }

  /**
   * The production date moved on by `shelfLifeDays` calendar days, as a
   * full date; a RangeError when the production date is not a date or the
   * result lies outside the time range.
   */
  function ExpiryDateOf(productionDate: string, shelfLifeDays: int): (r: Result<string>)
    ensures r.Success? <==> (ParseFullDate(productionDate).Some?
      && InTimeRange(DaysFromCivil(ParseFullDate(productionDate).value) + shelfLifeDays))
    ensures r.Failure? ==> r.error == InvalidTimeValue
    ensures r.Success? ==> 'T' !in r.value
  {
    match ParseFullDate(productionDate)
    case None => Failure(InvalidTimeValue)
    case Some(p) =>
      var e := AddDays(p, shelfLifeDays);
      if InTimeRange(DaysFromCivil(e)) then Success(FormatFullDate(e)) else Failure(InvalidTimeValue)
  }

  /** With a four-digit expiry year, the preview reads back as the day `shelfLifeDays` after production. */
  lemma ExpiryDateReadsBack(productionDate: string, shelfLifeDays: int)
    requires ExpiryDateOf(productionDate, shelfLifeDays).Success?
    requires 0 <= AddDays(ParseFullDate(productionDate).value, shelfLifeDays).year <= 9999
    ensures var e := ParseFullDate(ExpiryDateOf(productionDate, shelfLifeDays).value);
      e.Some? && DaysFromCivil(e.value) == DaysFromCivil(ParseFullDate(productionDate).value) + shelfLifeDays
  {
    var p := ParseFullDate(productionDate).value;
    ParseFormatRoundTrip(AddDays(p, shelfLifeDays));
  }

  /**
   * Expiry is strictly increasing in shelf life, never earlier than the
   * production date for a non-negative shelf life, and the production date
   * itself for zero.
   */
  lemma ExpiryDateOrder(productionDate: string, j: int, k: int)
    requires ParseFullDate(productionDate).Some?
    ensures var p := ParseFullDate(productionDate).value;
      (j < k <==> Before(AddDays(p, j), AddDays(p, k)))
      && (k >= 0 ==> !Before(AddDays(p, k), p))
      && (ExpiryDateOf(productionDate, 0) == Success(productionDate))
  {
    var p := ParseFullDate(productionDate).value;
    AddDaysMonotone(p, j, k);
    AddDaysMonotone(p, k, 0);
    AddDaysMonotone(p, 0, k);
    BeforeIsDayOrder(AddDays(p, k), p);
    FormatParseRoundTrip(productionDate);
    assert InTimeRange(DaysFromCivil(p)) by {
      DayInYear(p);
      DaysBeforeYearMonotone(-1, p.year);
      DaysBeforeYearMonotone(p.year, 10000);
    }
  }

  /** The preview for a production date whose expiry is a known four-digit-year date. */
  lemma ExpiryDateIs(productionDate: string, p: Date, k: int, e: Date, expiry: string)
    requires ParseFullDate(productionDate) == Some(p)
    requires IsValid(e) && DaysFromCivil(e) == DaysFromCivil(p) + k && 0 <= e.year <= 9999
    requires FormatFullDate(e) == expiry
    ensures ExpiryDateOf(productionDate, k) == Success(expiry)
  {
    AddDaysIs(p, k, e);
    assert InTimeRange(DaysFromCivil(e)) by {
      DayInYear(e);
      DaysBeforeYearMonotone(-1, e.year);
      DaysBeforeYearMonotone(e.year, 10000);
    }
  }

  /** A week after New Year's Day. */
  lemma ExpiryDateWithinMonth()
    ensures ExpiryDateOf("2024-01-01", 7) == Success("2024-01-08")
  {
    ParseDigits("2024-01-01", Date(2024, 1, 1));
    ParseDigits("2024-01-08", Date(2024, 1, 8));
    FormatParseRoundTrip("2024-01-08");
    assert DaysFromCivil(Date(2024, 1, 8)) == DaysFromCivil(Date(2024, 1, 1)) + 7;
    ExpiryDateIs("2024-01-01", Date(2024, 1, 1), 7, Date(2024, 1, 8), "2024-01-08");
  }

  /** The day after 28 February of a leap year is 29 February. */
  lemma ExpiryDateLeapDay()
    ensures ExpiryDateOf("2024-02-28", 1) == Success("2024-02-29")
  {
    ParseDigits("2024-02-28", Date(2024, 2, 28));
    ParseDigits("2024-02-29", Date(2024, 2, 29));
    FormatParseRoundTrip("2024-02-29");
    assert DaysFromCivil(Date(2024, 2, 29)) == DaysFromCivil(Date(2024, 2, 28)) + 1;
    ExpiryDateIs("2024-02-28", Date(2024, 2, 28), 1, Date(2024, 2, 29), "2024-02-29");
  }

  /** The day after New Year's Eve is in the next year. */
  lemma ExpiryDateYearRollover()
    ensures ExpiryDateOf("2024-12-31", 1) == Success("2025-01-01")
  {
    ParseDigits("2024-12-31", Date(2024, 12, 31));
    ParseDigits("2025-01-01", Date(2025, 1, 1));
    FormatParseRoundTrip("2025-01-01");
    assert DaysFromCivil(Date(2025, 1, 1)) == DaysFromCivil(Date(2024, 12, 31)) + 1;
    ExpiryDateIs("2024-12-31", Date(2024, 12, 31), 1, Date(2025, 1, 1), "2025-01-01");
  }

  /** `calculateExpiryDate`: '' until an ingredient of the catalogue and a production date are chosen. */
  function CalculateExpiryDate(ings: seq<Ingredient>, selected: Option<int>, productionDate: string): (r: Result<string>)
    ensures selected.None? || MenuApp.FindIngredient(ings, selected.value).None? || productionDate == "" ==>
      r == Success("")
    ensures selected.Some? && MenuApp.FindIngredient(ings, selected.value).Some? && productionDate != "" ==>
      r == ExpiryDateOf(productionDate, MenuApp.FindIngredient(ings, selected.value).value.shelfLifeDays)
  {
    match selected
    case None => Success("")
    case Some(id) =>
      match MenuApp.FindIngredient(ings, id)
      case None => Success("")
      case Some(ing) => if productionDate == "" then Success("") else ExpiryDateOf(productionDate, ing.shelfLifeDays)
  }

  /** `filteredIngredients`: the catalogue entries, in order, whose name contains the keyword ignoring case. */
  function FilteredIngredients(ings: seq<Ingredient>, keyword: string): (r: seq<Ingredient>)
    ensures forall x :: x in r <==> x in ings && MatchesIgnoringCase(x.name, keyword)
    ensures IsSubsequence(r, ings)
  {
    Filter(ings, (x: Ingredient) => MatchesIgnoringCase(x.name, keyword))
  }

  /** The empty keyword lists the whole catalogue. */
  lemma EmptyKeywordKeepsAll(ings: seq<Ingredient>)
    ensures FilteredIngredients(ings, "") == ings
  {
    forall x | x in ings ensures MatchesIgnoringCase(x.name, "") {
      MatchesIgnoringCaseBasics(x.name);
    }
    FilterAll(ings, (x: Ingredient) => MatchesIgnoringCase(x.name, ""));
  }

  /** What the form hands to `onSubmit`. */
  datatype Submission = Submission(ingredientId: int, productionDate: string, storageType: StorageType)

  const NoIngredientAlert: string := "请选择食材"
  const NoDateAlert: string := "请选择生产日期"

  class AddInventoryForm {
    var selectedIngredientId: Option<int>
    var productionDate: string
    var searchKeyword: string

    constructor()
      ensures selectedIngredientId == None && productionDate == "" && searchKeyword == ""
    {
      selectedIngredientId := None;
      productionDate := "";
      searchKeyword := "";
    }

    /** The open effect: no selection, today's date, no keyword. */
    method Open(nowMs: int)
      modifies this
      ensures selectedIngredientId == None && productionDate == IsoDate(nowMs) && searchKeyword == ""
    {
      selectedIngredientId := None;
      productionDate := IsoDate(nowMs);
      searchKeyword := "";
    }

    method SelectIngredient(id: int)
      modifies this
      ensures selectedIngredientId == Some(id)
      ensures productionDate == old(productionDate) && searchKeyword == old(searchKeyword)
    {
      selectedIngredientId := Some(id);
    }

    method SetProductionDate(date: string)
      modifies this
      ensures productionDate == date
      ensures selectedIngredientId == old(selectedIngredientId) && searchKeyword == old(searchKeyword)
    {
      productionDate := date;
    }

    method SetSearchKeyword(keyword: string)
      modifies this
      ensures searchKeyword == keyword
      ensures selectedIngredientId == old(selectedIngredientId) && productionDate == old(productionDate)
    {
      searchKeyword := keyword;
    }

    /** The expiry preview. */
    function ExpiryPreview(ings: seq<Ingredient>): (r: Result<string>)
      reads this
      ensures selectedIngredientId.None? || productionDate == "" ==> r == Success("")
    {
      CalculateExpiryDate(ings, selectedIngredientId, productionDate)
    }

    /** The listed ingredients. */
    function Listed(ings: seq<Ingredient>): (r: seq<Ingredient>)
      reads this
      ensures searchKeyword == "" ==> r == ings
    {
      EmptyKeywordKeepsAll(ings);
      FilteredIngredients(ings, searchKeyword)
    }

    /**
     * `handleSubmit`: an alert without an ingredient (an id of 0 counts as
     * none) or without a date; otherwise the selection, the date and the
     * ingredient's storage type, 冷藏 when the catalogue lacks the id.
     */
    function SubmitResult(ings: seq<Ingredient>): (r: Result<Submission>)
      reads this
      ensures selectedIngredientId.None? || selectedIngredientId == Some(0) ==> r == Failure(NoIngredientAlert)
      ensures selectedIngredientId.Some? && selectedIngredientId != Some(0) && productionDate == "" ==>
        r == Failure(NoDateAlert)
      ensures r.Success? <==> selectedIngredientId.Some? && selectedIngredientId != Some(0) && productionDate != ""
      ensures r.Success? ==> r.value.ingredientId == selectedIngredientId.value && r.value.productionDate == productionDate
      ensures r.Success? && MenuApp.FindIngredient(ings, r.value.ingredientId).Some? ==>
        r.value.storageType == MenuApp.FindIngredient(ings, r.value.ingredientId).value.storageType
      ensures r.Success? && MenuApp.FindIngredient(ings, r.value.ingredientId).None? ==> r.value.storageType == Cold
    {
      match selectedIngredientId
      case None => Failure(NoIngredientAlert)
      case Some(id) =>
        if id == 0 then Failure(NoIngredientAlert)
        else if productionDate == "" then Failure(NoDateAlert)
        else
          var storage := match MenuApp.FindIngredient(ings, id) case Some(ing) => ing.storageType case None => Cold;
          Success(Submission(id, productionDate, storage))
    }
  }

  /** Right after opening, the form cannot be submitted and shows no expiry. */
  lemma OpenedFormIsBlank(ings: seq<Ingredient>, nowMs: int)
    ensures CalculateExpiryDate(ings, None, IsoDate(nowMs)) == Success("")
    ensures FilteredIngredients(ings, "") == ings
  {
    EmptyKeywordKeepsAll(ings);
  }
}
