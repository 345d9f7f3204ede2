/** The post and media forms of the content app: PostForm with its clean()
    rule for paid posts, MediaForm's choices, and the media formset. */
module ContentForms {
  import opened Base
  import opened Money
  import opened ContentModels

  /** price = forms.DecimalField(max_digits=10, decimal_places=2) */
  const PriceMaxDigits: nat := 10
  const PriceDecimalPlaces: nat := 2

  /** What a PostForm submission holds once each field has turned its raw
      value into a Python value: text and price are optional, so an empty
      text is "" and an empty price is None; an unticked is_paid is False. */
  datatype PostInput = PostInput(text: string, isPaid: bool, price: Option<Decimal>)

  datatype PostFormError = PriceField(e: DecimalError) | PaidNeedsPrice

  /** PostForm.clean(): a paid post needs a price greater than zero; the
      cleaned data is returned unchanged otherwise. A price that failed its
      own field check is absent from the cleaned data, which clean() reads
      as None. */
  function CleanPost(isPaid: bool, price: Option<Decimal>): (r: Option<PostFormError>)
    ensures isPaid && price.None? ==> r == Some(PaidNeedsPrice)
    ensures isPaid && price.Some? && IsNonPositive(price.value) ==> r == Some(PaidNeedsPrice)
    ensures isPaid && price.Some? && !IsNonPositive(price.value) ==> r.None?
    ensures !isPaid ==> r.None?
  {
    if isPaid && (price.None? || IsNonPositive(price.value)) then Some(PaidNeedsPrice) else None
  }

  /** form.is_valid(): the field checks, then clean(). Both kinds of error
      are reported together. */
  function ValidatePost(f: PostInput): (r: Result<PostInput, seq<PostFormError>>)
    ensures r.Ok? <==>
      && (f.price.None? || DecimalFieldError(f.price.value, PriceMaxDigits, PriceDecimalPlaces).None?)
      && (!f.isPaid || (f.price.Some? && !IsNonPositive(f.price.value)))
    ensures r.Ok? ==> r.value == f
    ensures r.Err? ==> |r.error| > 0
    ensures r.Err? && f.isPaid && f.price.None? ==> PaidNeedsPrice in r.error
  {
    var fieldError := if f.price.None? then None else DecimalFieldError(f.price.value, PriceMaxDigits, PriceDecimalPlaces);
    var cleanedPrice := if fieldError.None? then f.price else None;
    var fieldErrors := if fieldError.None? then [] else [PriceField(fieldError.value)];
    var formErrors := match CleanPost(f.isPaid, cleanedPrice) case None => [] case Some(e) => [e];
    if fieldErrors + formErrors == [] then Ok(f) else Err(fieldErrors + formErrors)
  }

  /** One media form of the formset after its fields are read: the chosen
      media type, absent when the form was left untouched, and the optional
      file. */
  datatype MediaInput = MediaInput(mediaType: Option<string>, file: Option<UploadedFile>)

  /** A single MediaForm is acceptable when it was left empty (an extra form
      that did not change is not validated) or when its media type is one of
      Media.MEDIA_TYPES; the file is optional, but one that is given must
      pass FileField's checks: it has a name and is not empty. */
  predicate MediaFormValid(m: MediaInput)
  {
    || (m.mediaType.None? && m.file.None?)
    || (&& m.mediaType.Some? && ParseMediaType(m.mediaType.value).Some?
        && (m.file.None? || FileFieldError(m.file.value).None?))
  }

  /** A media form holding a nameless or empty file makes the formset
      invalid. */
  lemma EmptyMediaFileInvalidates(forms: seq<MediaInput>, i: nat)
    requires i < |forms| && forms[i].file.Some? && FileFieldError(forms[i].file.value).Some?
    ensures !FormsetValid(forms)
  {
    assert !MediaFormValid(forms[i]);
  }

  /** formset.is_valid() */
  predicate FormsetValid(forms: seq<MediaInput>)
  {
    forall i :: 0 <= i < |forms| ==> MediaFormValid(forms[i])
  }

  /** The media type of a form that has a file, in a valid formset. */
  function TypeOf(m: MediaInput): MediaType
    requires MediaFormValid(m) && m.file.Some?
  {
    ParseMediaType(m.mediaType.value).value
  }

  /** The forms create_post saves, in order: those whose cleaned data has a
      file, each with its file and media type. */
  function AttachedFiles(forms: seq<MediaInput>): (r: seq<(UploadedFile, MediaType)>)
    requires FormsetValid(forms)
    ensures |r| <= |forms|
    decreases |forms|
  {
    if |forms| == 0 then []
    else
      var init := forms[..|forms| - 1];
      var last := forms[|forms| - 1];
      assert forall i :: 0 <= i < |init| ==> init[i] == forms[i];
      var before := AttachedFiles(init);
      if last.file.Some? then before + [(last.file.value, TypeOf(last))] else before
  }

  /** Every form is saved exactly when each has a file, and none is saved
      exactly when none has one. */
  lemma {:induction false} AttachedFilesCount(forms: seq<MediaInput>)
    requires FormsetValid(forms)
    ensures |AttachedFiles(forms)| == |forms| <==> forall i :: 0 <= i < |forms| ==> forms[i].file.Some?
    ensures AttachedFiles(forms) == [] <==> forall i :: 0 <= i < |forms| ==> forms[i].file.None?
    decreases |forms|
  {
    if |forms| > 0 {
      var init := forms[..|forms| - 1];
      assert forall i :: 0 <= i < |init| ==> init[i] == forms[i];
      AttachedFilesCount(init);
    }
  }

  /** Exactly the forms with a file are attached: each of them with its own
      file and type, and nothing else. */
  lemma {:induction false} AttachedFilesExact(forms: seq<MediaInput>)
    requires FormsetValid(forms)
    ensures forall i :: 0 <= i < |forms| && forms[i].file.Some? ==>
      (forms[i].file.value, TypeOf(forms[i])) in AttachedFiles(forms)
    ensures forall x :: x in AttachedFiles(forms) ==>
      exists i :: 0 <= i < |forms| && forms[i].file == Some(x.0) && TypeOf(forms[i]) == x.1
    decreases |forms|
  {
    if |forms| > 0 {
      var init := forms[..|forms| - 1];
      assert forall i :: 0 <= i < |init| ==> init[i] == forms[i];
      AttachedFilesExact(init);
      var r := AttachedFiles(forms);
      var before := AttachedFiles(init);
      assert forall x :: x in before ==> x in r;
      forall x | x in r
        ensures exists i :: 0 <= i < |forms| && forms[i].file == Some(x.0) && TypeOf(forms[i]) == x.1
      {
        if x !in before {
          assert forms[|forms| - 1].file == Some(x.0) && TypeOf(forms[|forms| - 1]) == x.1;
        } else {
          var i :| 0 <= i < |init| && init[i].file == Some(x.0) && TypeOf(init[i]) == x.1;
          assert forms[i] == init[i];
        }
      }
    }
  }
}
