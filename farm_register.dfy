/**
 * The farm registration form: its fields, the crop list editor, the image picker and the
 * ordered validation that runs before the form is posted.
 */
module FarmRegister {
  import opened Wrappers
  import opened Text
  import opened Seqs

  datatype Crop = Crop(name: string, variety: string, plantingDate: string)

  const EmptyCrop := Crop("", "", "")

  /** `crop[field] = value` for the three crop inputs (`crop_name`, `crop_variety`, `crop_plantingDate`). */
  function SetCropField(c: Crop, field: string, value: string): (r: Crop)
    ensures field == "name" ==> r == c.(name := value)
    ensures field == "variety" ==> r == c.(variety := value)
    ensures field == "plantingDate" ==> r == c.(plantingDate := value)
    ensures field !in {"name", "variety", "plantingDate"} ==> r == c
  {
    if field == "name" then c.(name := value)
    else if field == "variety" then c.(variety := value)
    else if field == "plantingDate" then c.(plantingDate := value)
    else c
  }

  /** `name.split("_")[1]` for an input named `crop_<field>`: the crop field it edits. */
  function CropFieldOf(name: string): string
    requires StartsWith(name, "crop_")
  {
    assert name[4] == '_';
    SecondSegment(name, '_').value
  }

  /**
   * The form state: the flat text fields (`name`, `soilType`, `area`, `address`, `lat`, `lng`,
   * keyed as the inputs are named) and the crop list.
   */
  datatype FarmData = FarmData(fields: map<string, string>, crops: seq<Crop>)

  const InitialFarmData := FarmData(
    map["name" := "", "soilType" := "loamy", "area" := "", "address" := "", "lat" := "", "lng" := ""],
    [EmptyCrop])

  /** A string field is falsy when it is absent (`undefined`) or empty. */
  predicate Falsy(v: Option<string>) {
    v.None? || v.value == ""
  }

  /** `!formData.area || formData.area < 0.1`; an area that is not a number (NaN) compares false. */
  predicate AreaRejected(area: Option<string>) {
    Falsy(area) || (ToNumber(area.value).Some? && ToNumber(area.value).value < 0.1)
  }

  function HasName(c: Crop): bool {
    !IsBlank(c.name)
  }

  /** `crops.filter(crop => crop.name.trim())`: the crops that are sent, in their original order. */
  function ValidCrops(crops: seq<Crop>): seq<Crop> {
    Filter(crops, HasName)
  }

  const NameRequired := "Farm name is required"
  const AreaTooSmall := "Area must be at least 0.1 acres"
  const LocationRequired := "Location coordinates are required. Please use 'Get My Location' or enter manually."
  const CropRequired := "At least one crop is required"

  /** The checks of `validateForm` in order; the first failing check names the error. */
  function Validate(d: FarmData): (err: Option<string>)
    requires "name" in d.fields
    ensures err == Some(NameRequired) <==> IsBlank(d.fields["name"])
    ensures err == Some(AreaTooSmall) <==>
      !IsBlank(d.fields["name"]) && AreaRejected(Get(d.fields, "area"))
    ensures err == Some(LocationRequired) <==>
      !IsBlank(d.fields["name"]) && !AreaRejected(Get(d.fields, "area"))
      && (Falsy(Get(d.fields, "lat")) || Falsy(Get(d.fields, "lng")))
    ensures err == Some(CropRequired) <==>
      !IsBlank(d.fields["name"]) && !AreaRejected(Get(d.fields, "area"))
      && !Falsy(Get(d.fields, "lat")) && !Falsy(Get(d.fields, "lng"))
      && forall i :: 0 <= i < |d.crops| ==> IsBlank(d.crops[i].name)
    ensures err == None <==>
      !IsBlank(d.fields["name"]) && !AreaRejected(Get(d.fields, "area"))
      && !Falsy(Get(d.fields, "lat")) && !Falsy(Get(d.fields, "lng"))
      && exists i :: 0 <= i < |d.crops| && !IsBlank(d.crops[i].name)
  {
    NoValidCropsIffAllBlank(d.crops);
    if IsBlank(d.fields["name"]) then Some(NameRequired)
    else if AreaRejected(Get(d.fields, "area")) then Some(AreaTooSmall)
    else if Falsy(Get(d.fields, "lat")) || Falsy(Get(d.fields, "lng")) then Some(LocationRequired)
    else if |ValidCrops(d.crops)| == 0 then Some(CropRequired)
    else None
  }

  /** No crop is sent exactly when every crop name is blank. */
  lemma {:induction false} NoValidCropsIffAllBlank(crops: seq<Crop>)
    ensures ValidCrops(crops) == [] <==> forall i :: 0 <= i < |crops| ==> IsBlank(crops[i].name)
  {
    if crops != [] {
      NoValidCropsIffAllBlank(crops[1..]);
      assert forall i :: 1 <= i < |crops| ==> crops[i] == crops[1..][i - 1];
    }
  }

  /**
   * The crops that are sent: exactly the named crops, every copy of each, as an
   * order-preserving sub-list.
   */
  lemma SubmittedCrops(crops: seq<Crop>)
    ensures IsSubsequence(ValidCrops(crops), crops)
    ensures forall c :: c in ValidCrops(crops) <==> c in crops && !IsBlank(c.name)
    ensures forall c :: multiset(ValidCrops(crops))[c] == if !IsBlank(c.name) then multiset(crops)[c] else 0
  {
    FilterIsSubsequence(crops, HasName);
    forall c ensures c in ValidCrops(crops) <==> c in crops && !IsBlank(c.name) {
      FilterMembership(crops, HasName, c);
    }
    forall c ensures multiset(ValidCrops(crops))[c] == if !IsBlank(c.name) then multiset(crops)[c] else 0 {
      FilterMultiplicity(crops, HasName, c);
    }
  }

  /** `filter((_, i) => i !== index)`: the list without position `index`. */
  function RemoveAt(crops: seq<Crop>, index: int): (r: seq<Crop>)
    ensures 0 <= index < |crops| ==> |r| == |crops| - 1
    ensures 0 <= index < |crops| ==> forall i :: 0 <= i < |r| ==> r[i] == crops[if i < index then i else i + 1]
    ensures !(0 <= index < |crops|) ==> r == crops
  {
    if 0 <= index < |crops| then crops[..index] + crops[index + 1..] else crops
  }

  const MaxImageBytes := 5 * 1024 * 1024
  const ImageTooLarge := "\U{274C} Image size should be less than 5MB"
  const NotAnImage := "\U{274C} Please upload an image file"

  datatype ImageFile = ImageFile(size: nat, mimeType: string)

  /** The checks on a picked file: its size first, then its type. */
  function ImageError(f: ImageFile): (err: Option<string>)
    ensures f.size > MaxImageBytes ==> err == Some(ImageTooLarge)
    ensures f.size <= MaxImageBytes && !StartsWith(f.mimeType, "image/") ==> err == Some(NotAnImage)
    ensures err == None <==> f.size <= MaxImageBytes && StartsWith(f.mimeType, "image/")
  {
    if f.size > MaxImageBytes then Some(ImageTooLarge)
    else if !StartsWith(f.mimeType, "image/") then Some(NotAnImage)
    else None
  }

  class FarmForm {
    var formData: FarmData
    var image: Option<ImageFile>
    var preview: string
    var error: string

    /** The form always has a name field and at least one crop row. */
    ghost predicate Valid()
      reads this
    {
      "name" in formData.fields && |formData.crops| >= 1
    }

    constructor ()
      ensures Valid()
      ensures formData == InitialFarmData && image == None && preview == "" && error == ""
    {
      formData := InitialFarmData;
      image := None;
      preview := "";
      error := "";
    }

    /**
     * `handleChange(e, index)`: a `crop_<field>` input edits that field of crop `index`, any
     * other input sets the top-level field it is named after; either way the error is cleared.
     * No input is named `crops`.
     */
    method HandleChange(name: string, value: string, index: int)
      requires Valid() && name != "crops"
      requires StartsWith(name, "crop_") ==> 0 <= index < |formData.crops|
      modifies this
      ensures Valid() && error == ""
      ensures image == old(image) && preview == old(preview)
      ensures StartsWith(name, "crop_") ==>
        && formData.fields == old(formData.fields)
        && formData.crops == old(formData.crops)[index :=
             SetCropField(old(formData.crops)[index], CropFieldOf(name), value)]
      ensures !StartsWith(name, "crop_") ==>
        formData == old(formData).(fields := old(formData.fields)[name := value])
    {
      if StartsWith(name, "crop_") {
        var field := CropFieldOf(name);
        var crops := formData.crops;
        crops := crops[index := SetCropField(crops[index], field, value)];
        formData := formData.(crops := crops);
      } else {
        formData := formData.(fields := formData.fields[name := value]);
      }
      error := "";
    }

    /** `handleAddCrop`: one more, empty, crop row at the end. */
    method HandleAddCrop()
      requires Valid()
      modifies this
      ensures Valid()
      ensures formData == old(formData).(crops := old(formData.crops) + [EmptyCrop])
      ensures image == old(image) && preview == old(preview) && error == old(error)
    {
      formData := formData.(crops := formData.crops + [EmptyCrop]);
    }

    /** `handleRemoveCrop(index)`: the last remaining row is never removed. */
    method HandleRemoveCrop(index: int)
      requires Valid()
      modifies this
      ensures Valid()
      ensures |old(formData.crops)| > 1 ==>
        formData == old(formData).(crops := RemoveAt(old(formData.crops), index))
      ensures |old(formData.crops)| <= 1 ==> formData == old(formData)
      ensures image == old(image) && preview == old(preview) && error == old(error)
    {
      if |formData.crops| > 1 {
        formData := formData.(crops := RemoveAt(formData.crops, index));
      }
    }

    /** `handleImageUpload`: `objectUrl` stands for `URL.createObjectURL(file)`. */
    method HandleImageUpload(file: Option<ImageFile>, objectUrl: string)
      modifies this
      ensures formData == old(formData)
      ensures file.None? ==> image == old(image) && preview == old(preview) && error == old(error)
      ensures file.Some? && ImageError(file.value).Some? ==>
        error == ImageError(file.value).value && image == old(image) && preview == old(preview)
      ensures file.Some? && ImageError(file.value).None? ==>
        image == file && preview == objectUrl && error == ""
    {
      if file.Some? {
        var f := file.value;
        if f.size > MaxImageBytes {
          error := ImageTooLarge;
          return;
        }
        if !StartsWith(f.mimeType, "image/") {
          error := NotAnImage;
          return;
        }
        image := file;
        preview := objectUrl;
        error := "";
      }
    }

    /** `handleRemoveImage` */
    method HandleRemoveImage()
      modifies this
      ensures image == None && preview == ""
      ensures formData == old(formData) && error == old(error)
    {
      image := None;
      preview := "";
    }

    /** `validateForm`: reports the first failing check in `error`; success leaves `error` alone. */
    method ValidateForm() returns (ok: bool)
      requires Valid()
      modifies this
      ensures Valid()
      ensures ok <==> Validate(formData) == None
      ensures !ok ==> error == Validate(formData).value
      ensures ok ==> error == old(error)
      ensures formData == old(formData) && image == old(image) && preview == old(preview)
    {
      var verdict := Validate(formData);
      if verdict.Some? {
        error := verdict.value;
        return false;
      }
      return true;
    }
  }

  /** A form that passes validation always sends at least one crop, and never a nameless one. */
  lemma ValidatedFormSendsNamedCrops(d: FarmData)
    requires "name" in d.fields && Validate(d) == None
    ensures |ValidCrops(d.crops)| >= 1
    ensures forall i :: 0 <= i < |ValidCrops(d.crops)| ==> !IsBlank(ValidCrops(d.crops)[i].name)
  {
    NoValidCropsIffAllBlank(d.crops);
    FilterAllKept(d.crops, HasName);
  }

  /** An area the number parser cannot read (NaN) passes the area check. */
  lemma NaNAreaPasses(d: FarmData)
    requires "area" in d.fields && d.fields["area"] == "abc"
    ensures !AreaRejected(Get(d.fields, "area"))
  {
    var a := "abc";
    assert a[0] !in JsWhitespace && a[2] !in JsWhitespace;
    assert TrimStart(a) == a;
    assert TrimEnd(a) == a;
    assert '.' !in a && !IsDigit(a[0]);
    assert UnsignedDecimal(a) == None;
  }
}
