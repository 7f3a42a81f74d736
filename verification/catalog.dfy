/** Products of the storefront catalog and the display rules the shop applies
    to them. */
module Catalog {
  import opened Wrappers

  /** A price as delivered by the catalog. It is only ever copied, never
      computed with. */
  datatype Price = Price(amount: real)

  /** The catalog fields the storefront and the analytics payloads read;
      `brand` is an optional property of the catalog record. */
  datatype Product = Product(
    id: int,
    title: string,
    brand: Option<string>,
    category: string,
    price: Price,
    description: string
  )

  /** The brand shown in the product modal and sent in every analytics
      payload: `brand || "N/A"`, so an absent or empty brand becomes "N/A". */
  function BrandLabel(brand: Option<string>): (shown: string)
    ensures shown != ""
    ensures brand.Some? && brand.value != "" ==> shown == brand.value
    ensures brand.None? || brand.value == "" ==> shown == "N/A"
  {
    match brand
    case Some(b) => if b != "" then b else "N/A"
    case None => "N/A"
  }

  const PreviewLength: nat := 100

  /** The product card's description: the first 100 characters, then "...". */
  function DescriptionPreview(description: string): (preview: string)
    ensures |preview| == (if |description| < PreviewLength then |description| else PreviewLength) + 3
    ensures preview[..|preview| - 3] <= description
    ensures preview[|preview| - 3..] == "..."
  {
    var cut := if |description| < PreviewLength then |description| else PreviewLength;
    description[..cut] + "..."
  }

  /** A description that already fits is shown whole before the ellipsis. */
  lemma ShortDescriptionShownWhole(description: string)
    requires |description| <= PreviewLength
    ensures DescriptionPreview(description) == description + "..."
  {
  }
}
