/**
 * The add-ingredient form: its six fields, the image check, the shelf-life
 * input and the submit validation with its reset. `alert` becomes the
 * returned message.
 */
module AddIngredient {
  import opened Wrappers
  import opened Strings
  import opened Calendar
  import opened Types

  /** A chosen file: its MIME type and size in bytes. */
  datatype ImageFile = ImageFile(mimeType: string, size: int)

  const MaxImageBytes: int := 5 * 1024 * 1024
  const NotAnImageAlert: string := "请选择图片文件"
  const TooLargeAlert: string := "图片大小不能超过5MB"

  /** `handleImageChange`'s checks: an image MIME type first, then at most 5 MB. */
  function CheckImage(f: ImageFile): (r: Result<ImageFile>)
    ensures r.Success? <==> StartsWith(f.mimeType, "image/") && f.size <= MaxImageBytes
    ensures r.Success? ==> r.value == f
    ensures !StartsWith(f.mimeType, "image/") ==> r == Failure(NotAnImageAlert)
    ensures StartsWith(f.mimeType, "image/") && f.size > MaxImageBytes ==> r == Failure(TooLargeAlert)
  {
    if !StartsWith(f.mimeType, "image/") then Failure(NotAnImageAlert)
    else if f.size > MaxImageBytes then Failure(TooLargeAlert)
    else Success(f)
  }

  /** `parseInt(value) || 0`: the leading integer of the input, 0 when there is none. */
  function ShelfLifeInput(value: string): (n: int)
    ensures ParseIntPrefix(value).None? ==> n == 0
    ensures ParseIntPrefix(value).Some? ==> n == ParseIntPrefix(value).value
  {
    match ParseIntPrefix(value)
    case Some(k) => k
    case None => 0
  }

  /** Typing a number gives that number. */
  lemma ShelfLifeInputOfNumber(n: nat)
    ensures ShelfLifeInput(NatToString(n)) == n
  {
    ParseIntPrefixOfNatToString(n);
  }

  const BlankNameAlert: string := "请输入食材名称"
  const ShelfLifeAlert: string := "保质期必须大于0天"

  /** The submit checks: a name that is not blank after trimming, then a positive shelf life. */
  function Validate(name: string, shelfLifeDays: int): (r: Result<()>)
    ensures r.Success? <==> Trim(name) != "" && shelfLifeDays > 0
    ensures Trim(name) == "" ==> r == Failure(BlankNameAlert)
    ensures Trim(name) != "" && shelfLifeDays <= 0 ==> r == Failure(ShelfLifeAlert)
  {
    if Trim(name) == "" then Failure(BlankNameAlert)
    else if shelfLifeDays <= 0 then Failure(ShelfLifeAlert)
    else Success(())
  }

  /** A name made of whitespace only is rejected, and so is any shelf life typed without digits. */
  lemma ValidationRejects(name: string, shelfLifeInput: string)
    ensures (forall i :: 0 <= i < |name| ==> IsWhitespace(name[i])) ==>
      Validate(name, ShelfLifeInput(shelfLifeInput)) == Failure(BlankNameAlert)
    ensures ParseIntPrefix(shelfLifeInput).None? ==> Validate(name, ShelfLifeInput(shelfLifeInput)).Failure?
  {
    TrimBlank(name);
  }

  /** What the form hands to `onSubmit`. */
  datatype IngredientDraft = IngredientDraft(
    name: string, category: IngredientCategory, shelfLifeDays: int, storageType: StorageType,
    productionDate: string, imageFile: Option<ImageFile>)

  /** The form's fields. */
  datatype Fields = Fields(
    name: string, category: IngredientCategory, shelfLifeDays: int, storageType: StorageType,
    imageFile: Option<ImageFile>, imagePreview: string)

  /** The fields of a fresh or just-submitted form. */
  const Blank: Fields := Fields("", Vegetable, 7, Cold, None, "")

  class AddIngredientForm {
    var name: string
    var category: IngredientCategory
    var shelfLifeDays: int
    var storageType: StorageType
    var imageFile: Option<ImageFile>
    var imagePreview: string

    function Current(): Fields
      reads this
    {
      Fields(name, category, shelfLifeDays, storageType, imageFile, imagePreview)
    }

    constructor()
      ensures Current() == Blank
    {
      name := "";
      category := Vegetable;
      shelfLifeDays := 7;
      storageType := Cold;
      imageFile := None;
      imagePreview := "";
    }

    method SetName(value: string)
      modifies this
      ensures Current() == old(Current()).(name := value)
    {
      name := value;
    }

    /** The shelf-life field's `onInput`. */
    method SetShelfLifeInput(value: string)
      modifies this
      ensures Current() == old(Current()).(shelfLifeDays := ShelfLifeInput(value))
    {
      shelfLifeDays := ShelfLifeInput(value);
    }

    /** Keeps an acceptable image; otherwise reports why and keeps the previous one. The preview is left out. */
    method HandleImageChange(file: Option<ImageFile>) returns (alert: Option<string>)
      modifies this
      ensures file.None? ==> alert.None? && Current() == old(Current())
      ensures file.Some? && CheckImage(file.value).Failure? ==>
        alert == Some(CheckImage(file.value).error) && Current() == old(Current())
      ensures file.Some? && CheckImage(file.value).Success? ==>
        alert.None? && Current() == old(Current()).(imageFile := file)
    {
      alert := None;
      if file.Some? {
        var checked := CheckImage(file.value);
        if checked.Failure? {
          alert := Some(checked.error);
          return;
        }
        imageFile := file;
      }
    }

    /**
     * `handleSubmit` at time `nowMs`: a rejected form is left as it is; an
     * accepted one is handed over with its name trimmed and today's date, and
     * the form is reset.
     */
    method HandleSubmit(nowMs: int) returns (r: Result<IngredientDraft>)
      modifies this
      ensures Validate(old(name), old(shelfLifeDays)).Failure? ==>
        r == Failure(Validate(old(name), old(shelfLifeDays)).error) && Current() == old(Current())
      ensures Validate(old(name), old(shelfLifeDays)).Success? ==>
        r == Success(IngredientDraft(Trim(old(name)), old(category), old(shelfLifeDays), old(storageType),
                                     IsoDate(nowMs), old(imageFile)))
        && Current() == Blank
      ensures r.Success? ==> r.value.name != "" && r.value.shelfLifeDays > 0
    {
      var checked := Validate(name, shelfLifeDays);
      if checked.Failure? {
        return Failure(checked.error);
      }
      r := Success(IngredientDraft(Trim(name), category, shelfLifeDays, storageType, IsoDate(nowMs), imageFile));
      Reset();
    }

    /** The reset after a submit. */
    method Reset()
      modifies this
      ensures Current() == Blank
    {
      name := "";
      category := Vegetable;
      shelfLifeDays := 7;
      storageType := Cold;
      imageFile := None;
      imagePreview := "";
    }
  }

  /** The submitted name has no surrounding whitespace. */
  lemma SubmittedNameTrimmed(name: string)
    requires Trim(name) != ""
    ensures !IsWhitespace(Trim(name)[0]) && !IsWhitespace(Trim(name)[|Trim(name)| - 1])
  {
    TrimKeepsInner(name);
  }
}
