/** The token card: the truncated DNA hash, the title with its fallback, and the image
    that starts as a placeholder and is swapped in once it loads. */
module DnaCard {
  import opened Wrappers
  import opened Types
  import Strings
  import Numerals

  /** The placeholder image the card starts with and returns to when loading fails. */
  const DefaultImage := "https://images.pexels.com/" + "photos/3735747/pexels-photo-3735747.jpeg"
                        + "?auto=compress&cs=tinysrgb&w=1260&h=750&dpr=2"

  /** How many characters of the hash are shown before the ellipsis. */
  const HashDisplayLength := 40

  const TitlePrefix := "DNA NFT #"

  /** The shown hash: a hash longer than 40 characters is cut to its first 40 and "..." is
      appended (43 characters); a shorter one is shown whole. */
  function DisplayHash(hash: string): (r: string)
    ensures |hash| > HashDisplayLength ==>
      && |r| == HashDisplayLength + 3
      && r[..HashDisplayLength] == hash[..HashDisplayLength]
      && r[HashDisplayLength..] == "..."
    ensures |hash| <= HashDisplayLength ==> r == hash
    ensures |r| <= HashDisplayLength + 3
    ensures var shown := Strings.Min(HashDisplayLength, |hash|); |r| >= shown && r[..shown] == hash[..shown]
  {
    if |hash| > HashDisplayLength then Strings.Substring(hash, 0, HashDisplayLength) + "..." else hash
  }

  /** The title and alt text, `token.metadata?.name || "DNA NFT #" + id`: never empty, the
      metadata's name when it has a non-empty one, else the id-based fallback. */
  function CardTitle(metadata: Option<TokenMetadata>, id: nat): (r: string)
    ensures r != ""
    ensures metadata.Some? && metadata.value.name != "" ==> r == metadata.value.name
    ensures metadata.None? || metadata.value.name == "" ==> r == TitlePrefix + Numerals.Decimal(id)
  {
    if metadata.Some? && metadata.value.name != "" then metadata.value.name
    else TitlePrefix + Numerals.Decimal(id)
  }

  /** The card's `imageSrc` and `imageLoaded`, updated by its effect and the image's
      load and error callbacks. */
  class CardImage {
    var imageSrc: string
    var imageLoaded: bool

    /** Until something has loaded, the placeholder is shown. */
    predicate Valid()
      reads this
    {
      !imageLoaded ==> imageSrc == DefaultImage
    }

    constructor ()
      ensures Valid()
      ensures imageSrc == DefaultImage && !imageLoaded
    {
      imageSrc, imageLoaded := DefaultImage, false;
    }

    /** The effect on `token.metadata`: with a (non-empty) image it starts loading that image
      and returns it, changing nothing yet; without one it marks the card loaded and keeps
      the placeholder. */
    method LoadImage(metadata: Option<TokenMetadata>) returns (requested: Option<string>)
      requires Valid()
      modifies this`imageLoaded
      ensures Valid()
      ensures metadata.Some? && metadata.value.image != "" ==>
        requested == Some(metadata.value.image) && imageLoaded == old(imageLoaded)
      ensures metadata.None? || metadata.value.image == "" ==> requested.None? && imageLoaded
    {
      if metadata.Some? && metadata.value.image != "" {
        requested := Some(metadata.value.image);
      } else {
        requested := None;
        imageLoaded := true;
      }
    }

    /** `img.onload`: the image `LoadImage` requested for this metadata is shown. */
    method OnLoad(metadata: Option<TokenMetadata>)
      requires Valid()
      requires metadata.Some? && metadata.value.image != ""
      modifies this
      ensures Valid()
      ensures imageSrc == metadata.value.image && imageLoaded
    {
      imageSrc := metadata.value.image;
      imageLoaded := true;
    }

    /** `img.onerror`: back to the placeholder. */
    method OnError()
      requires Valid()
      modifies this
      ensures Valid()
      ensures imageSrc == DefaultImage && imageLoaded
    {
      imageSrc := DefaultImage;
      imageLoaded := true;
    }
  }
}
