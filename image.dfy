/**
 * A cached image. Every field but the key is optional; an image is "loaded"
 * exactly when its bytes are present.
 */
module Images {
  import opened Wrappers

  datatype Image = Image(
    pk: string,
    mimetype: Option<string>,
    etag: Option<string>,
    lastModified: Option<string>,
    data: Option<seq<bv8>>)
  {
    predicate Loaded() {
      data.Some?
    }
  }

  /** `Image::new(url)`: an image known only by its URL. */
  function NewImage(url: string): (img: Image)
    ensures img.pk == url && !img.Loaded()
    ensures img.etag.None? && img.lastModified.None? && img.mimetype.None?
  {
    Image(url, None, None, None, None)
  }

  /** `impl PartialEq`: two images are equal when key and etag agree. */
  predicate SameImage(a: Image, b: Image) {
    a.pk == b.pk && a.etag == b.etag
  }

  /** Mime type, last-modified stamp and bytes play no part in equality. */
  lemma SameImageIgnoresContent(a: Image, mimetype: Option<string>, lastModified: Option<string>, data: Option<seq<bv8>>)
    ensures SameImage(a, a.(mimetype := mimetype, lastModified := lastModified, data := data))
  {
  }

  /** A different key or a different etag makes two images unequal. */
  lemma SameImageNeedsKeyAndEtag(a: Image, b: Image)
    requires a.pk != b.pk || a.etag != b.etag
    ensures !SameImage(a, b)
  {
  }

  /** Image equality is an equivalence relation. */
  lemma SameImageIsEquivalence(a: Image, b: Image, c: Image)
    ensures SameImage(a, a)
    ensures SameImage(a, b) ==> SameImage(b, a)
    ensures SameImage(a, b) && SameImage(b, c) ==> SameImage(a, c)
  {
  }
}
