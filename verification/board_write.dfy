/**
 * The write page: a form of six text fields and up to five chosen images,
 * each with a preview, one of which is the main image.
 */
module BoardWrite {
  import Seqs
  import opened ImageList

  /** The form's fields, all empty at first. */
  const FormFields: set<string> := {"title", "hashtags", "description", "totalPrice", "maxParticipants", "location"}

  function EmptyForm(): (form: map<string, string>)
    ensures form.Keys == FormFields
    ensures forall k :: k in form ==> form[k] == ""
  {
    map k | k in FormFields :: ""
  }

  /** The files kept after choosing more: the first five of the old ones followed by the new. */
  function KeptFiles(old_: seq<ImageFile>, chosen: seq<ImageFile>): (files: seq<ImageFile>)
    ensures |files| == if |old_| + |chosen| <= MaxImages then |old_| + |chosen| else MaxImages
    ensures forall i :: 0 <= i < |files| ==> files[i] == (old_ + chosen)[i]
    ensures |old_| <= MaxImages ==> files[..|old_|] == old_
  {
    var all := old_ + chosen;
    if |all| <= MaxImages then all else all[..MaxImages]
  }

  class BoardWriteView {
    var formData: map<string, string>
    var selectedImages: seq<ImageFile>
    var imagePreviewUrls: seq<string>
    var mainImageIndex: int
    /** `URL.createObjectURL`, as a function of the file. */
    const createUrl: ImageFile -> string

    /** One preview per chosen file, in order, at most five, and a main index inside the list (or 0). */
    predicate Valid()
      reads this
    {
      && imagePreviewUrls == Seqs.Map(selectedImages, createUrl)
      && |selectedImages| <= MaxImages
      && 0 <= mainImageIndex
      && (mainImageIndex < |selectedImages| || mainImageIndex == 0)
    }

    constructor(createUrl: ImageFile -> string)
      ensures this.createUrl == createUrl
      ensures formData == EmptyForm()
      ensures selectedImages == [] && imagePreviewUrls == [] && mainImageIndex == 0
      ensures Valid()
    {
      this.createUrl := createUrl;
      formData := EmptyForm();
      selectedImages := [];
      imagePreviewUrls := [];
      mainImageIndex := 0;
    }

    /** `handleinputChange`: only the named field changes. */
    method InputChanged(field: string, value: string)
      modifies this
      ensures formData == old(formData)[field := value]
      ensures field in formData && formData[field] == value
      ensures forall k :: k in old(formData) && k != field ==> k in formData && formData[k] == old(formData)[k]
      ensures old(formData).Keys <= formData.Keys
      ensures selectedImages == old(selectedImages) && imagePreviewUrls == old(imagePreviewUrls)
      ensures mainImageIndex == old(mainImageIndex)
    {
      formData := formData[field := value];
    }

    /**
     * `handleImageChange`: choosing nothing changes nothing; otherwise the
     * chosen files are appended, the list is cut to five, and every preview
     * is made afresh from the kept files.
     */
    method HandleImageChange(chosen: seq<ImageFile>)
      requires Valid()
      modifies this
      ensures Valid()
      ensures chosen == [] ==> selectedImages == old(selectedImages) && imagePreviewUrls == old(imagePreviewUrls)
      ensures chosen != [] ==> selectedImages == KeptFiles(old(selectedImages), chosen)
      ensures chosen != [] ==> imagePreviewUrls == Seqs.Map(selectedImages, createUrl)
      ensures selectedImages[..|old(selectedImages)|] == old(selectedImages)
      ensures mainImageIndex == old(mainImageIndex) && formData == old(formData)
    {
      if |chosen| == 0 {
        return;
      }
      var files := KeptFiles(selectedImages, chosen);
      selectedImages := files;
      imagePreviewUrls := Seqs.Map(files, createUrl);
    }

    /**
     * `removeImage`: index `i` leaves both lists, the others keep their order,
     * and the main index follows the image it pointed at (or goes back to 0).
     */
    method RemoveImage(index: int)
      requires Valid() && 0 <= index < |imagePreviewUrls|
      modifies this
      ensures Valid()
      ensures selectedImages == Seqs.RemoveAt(old(selectedImages), index)
      ensures imagePreviewUrls == Seqs.RemoveAt(old(imagePreviewUrls), index)
      ensures mainImageIndex == MainAfterRemoval(index, old(mainImageIndex))
      ensures index != old(mainImageIndex) && old(mainImageIndex) < |old(selectedImages)| ==>
        selectedImages[mainImageIndex] == old(selectedImages)[old(mainImageIndex)]
      ensures formData == old(formData)
    {
      Seqs.MapRemoveAt(selectedImages, index, createUrl);
      if mainImageIndex < |selectedImages| {
        RemovalKeepsMainInRange(selectedImages, index, mainImageIndex);
        if index != mainImageIndex {
          RemovalKeepsMain(selectedImages, index, mainImageIndex);
        }
      }
      selectedImages := Seqs.RemoveAt(selectedImages, index);
      imagePreviewUrls := Seqs.RemoveAt(imagePreviewUrls, index);
      mainImageIndex := MainAfterRemoval(index, mainImageIndex);
    }

    /** `setAsMainImage`, from a click on preview `index`. */
    method SetAsMainImage(index: int)
      requires Valid() && 0 <= index < |imagePreviewUrls|
      modifies this
      ensures Valid()
      ensures mainImageIndex == index
      ensures selectedImages == old(selectedImages) && imagePreviewUrls == old(imagePreviewUrls)
      ensures formData == old(formData)
    {
      mainImageIndex := index;
    }
  }
}
