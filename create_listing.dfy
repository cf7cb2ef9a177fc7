/** The create-listing form: the image previews, at most four, and the schema
    a submitted form must satisfy before the listing is sent. */
module CreateListing {
  import opened Lists

  const MaxImages := 4

  // ----- The image previews -----

  /** The upload handler on the chosen files, given as their preview handles
      `urls`: no files, or a full list, change nothing; otherwise the new
      handles are appended and the list is cut back to four. */
  function Upload(images: seq<string>, urls: seq<string>): (r: seq<string>)
    ensures urls == [] || |images| >= MaxImages ==> r == images
    ensures |images| < MaxImages ==>
      r == images + urls[..Min(MaxImages - |images|, |urls|)]
  {
    if |urls| > 0 then
      if |images| >= MaxImages then images
      else (images + urls)[..Min(MaxImages, |images| + |urls|)]
    else images
  }

  /** What the user sees of an upload: the old images stay in front, in
      order, the list never grows past four, and while there is room at
      least one new image is taken. */
  lemma UploadKeepsImagesWithinCap(images: seq<string>, urls: seq<string>)
    ensures images <= Upload(images, urls)
    ensures |images| <= MaxImages ==> |Upload(images, urls)| <= MaxImages
    ensures |images| < MaxImages && urls != [] ==> |Upload(images, urls)| > |images|
    ensures forall u :: u in Upload(images, urls) ==> u in images || u in urls
  {
    if |images| < MaxImages {
      var k := Min(MaxImages - |images|, |urls|);
      forall u | u in Upload(images, urls) ensures u in images || u in urls {
        var i :| 0 <= i < |images| + k && Upload(images, urls)[i] == u;
        if i >= |images| {
          assert u == urls[i - |images|];
        }
      }
    }
  }

  /** The delete button on a preview drops that image. */
  function RemoveImage(images: seq<string>, index: int): (r: seq<string>)
    ensures 0 <= index < |images| ==>
      |r| == |images| - 1
      && (forall i :: 0 <= i < index ==> r[i] == images[i])
      && (forall i :: index <= i < |r| ==> r[i] == images[i + 1])
    ensures !(0 <= index < |images|) ==> r == images
  {
    RemoveAt(images, index)
  }

  /** Uploading one image into a free slot and deleting it again restores
      the list. */
  lemma UploadThenRemove(images: seq<string>, url: string)
    requires |images| < MaxImages
    ensures RemoveImage(Upload(images, [url]), |images|) == images
  {
    assert Upload(images, [url]) == images + [url];
    assert (images + [url])[..|images|] == images;
  }

  /** The upload slot is rendered while fewer than four images are shown. */
  predicate CanUpload(images: seq<string>) { |images| < MaxImages }

  datatype Action = UploadFiles(urls: seq<string>) | Remove(index: int)

  /** Only the rendered controls can be used: the slot while it is shown, a
      delete button on an image that is there. */
  predicate Enabled(images: seq<string>, a: Action)
  {
    match a
    case UploadFiles(_) => CanUpload(images)
    case Remove(index) => 0 <= index < |images|
  }

  function Run(images: seq<string>, actions: seq<Action>): Option<seq<string>>
    decreases |actions|
  {
    if actions == [] then Some(images)
    else if !Enabled(images, actions[0]) then None
    else
      var next := match actions[0]
        case UploadFiles(urls) => Upload(images, urls)
        case Remove(index) => RemoveImage(images, index);
      Run(next, actions[1..])
  }

  /** However the controls are used, a form that starts with at most four
      images never shows more than four. */
  lemma {:induction false} RunKeepsAtMostFour(images: seq<string>, actions: seq<Action>)
    requires |images| <= MaxImages
    ensures Run(images, actions).Some? ==> |Run(images, actions).value| <= MaxImages
    decreases |actions|
  {
    if actions != [] && Enabled(images, actions[0]) {
      match actions[0]
      case UploadFiles(urls) =>
        UploadKeepsImagesWithinCap(images, urls);
        RunKeepsAtMostFour(Upload(images, urls), actions[1..]);
      case Remove(index) =>
        RunKeepsAtMostFour(RemoveImage(images, index), actions[1..]);
    }
  }

  // ----- The form schema -----

  /** The form's values after coercion: `price` is the number the price
      input coerces to. */
  datatype FormValues = FormValues(
    title: string,
    category: string,
    department: string,
    price: real,
    condition: string,
    description: string)

  /** The fields of the schema, in the order it declares them. */
  datatype Field = Title | Category | Department | Price | Condition | Description

  const SchemaOrder := [Title, Category, Department, Price, Condition, Description]

  /** The form's starting values: empty text and a price of 0. */
  const Defaults := FormValues("", "", "", 0.0, "", "")

  /** One rule per field: the minimum length of a text, a chosen select, and
      a price of at least 1. */
  predicate FieldOk(v: FormValues, f: Field)
  {
    match f
    case Title => |v.title| >= 3
    case Category => |v.category| >= 1
    case Department => |v.department| >= 1
    case Price => v.price >= 1.0
    case Condition => |v.condition| >= 1
    case Description => |v.description| >= 10
  }

  /** The fields whose rule fails, each once, in schema order. */
  function Issues(v: FormValues): (r: seq<Field>)
    ensures forall f :: f in r <==> !FieldOk(v, f)
    ensures IsSubsequence(r, SchemaOrder)
  {
    FailingFields(v);
    Filter(SchemaOrder, Failing(v))
  }

  lemma FailingFields(v: FormValues)
    ensures forall f :: f in Filter(SchemaOrder, Failing(v)) <==> !FieldOk(v, f)
    ensures IsSubsequence(Filter(SchemaOrder, Failing(v)), SchemaOrder)
  {
    FilterMembers(SchemaOrder, Failing(v));
    FilterIsSubsequence(SchemaOrder, Failing(v));
    forall f: Field ensures f in SchemaOrder {
      EveryFieldInSchema(f);
    }
  }

  lemma EveryFieldInSchema(f: Field)
    ensures f in SchemaOrder
  {
    var i := match f
      case Title => 0 case Category => 1 case Department => 2
      case Price => 3 case Condition => 4 case Description => 5;
    assert SchemaOrder[i] == f;
  }

  function Failing(v: FormValues): Field -> bool
  {
    f => !FieldOk(v, f)
  }

  /** The schema accepts the form exactly when there is no issue, which is
      exactly when every rule holds. */
  predicate IsValid(v: FormValues)
  {
    Issues(v) == []
  }

  lemma ValidIff(v: FormValues)
    ensures IsValid(v) <==>
      |v.title| >= 3 && |v.category| >= 1 && |v.department| >= 1
      && v.price >= 1.0 && |v.condition| >= 1 && |v.description| >= 10
  {
    if !IsValid(v) {
      assert Issues(v)[0] in Issues(v);
    }
  }

  /** Submitting the untouched form reports every field. */
  lemma DefaultsFailEveryRule()
    ensures Issues(Defaults) == SchemaOrder
  {
    FilterKeepsAll(SchemaOrder, Failing(Defaults));
  }

  // ----- The page -----

  class CreateListingPage {
    var images: seq<string>
    var isSubmitting: bool

    constructor ()
      ensures images == [] && !isSubmitting
    {
      images := [];
      isSubmitting := false;
    }

    method HandleImageUpload(urls: seq<string>)
      modifies this
      ensures images == Upload(old(images), urls)
      ensures isSubmitting == old(isSubmitting)
    {
      if |urls| > 0 {
        if |images| >= MaxImages {
          return;
        }
        images := (images + urls)[..Min(MaxImages, |images| + |urls|)];
      }
    }

    method HandleRemoveImage(index: int)
      modifies this
      ensures images == RemoveImage(old(images), index)
      ensures isSubmitting == old(isSubmitting)
    {
      images := RemoveAt(images, index);
    }

    /** The submit button: the schema is checked first and reports its
        issues; only a valid form reaches the submit handler, which marks the
        form as submitting. */
    method HandleSubmit(v: FormValues) returns (issues: seq<Field>)
      modifies this
      ensures issues == Issues(v)
      ensures isSubmitting == (old(isSubmitting) || IsValid(v))
      ensures images == old(images)
    {
      issues := Issues(v);
      if issues == [] {
        isSubmitting := true;
      }
    }
  }
}
