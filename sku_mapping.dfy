/** The OCR-credits app's SKU table
    (apps/ocr-credits/src/modules/configuration/sku-mapping.ts). */
module SkuMapping {
  import opened Wrappers

  /** `SKU_TO_PAGES`: product variant SKU to the number of OCR pages it buys. */
  const SkuToPages: map<string, int> := map[
    "OCR-500" := 500,
    "OCR-1000" := 1000,
    "OCR-2000" := 2000,
    "OCR-5000" := 5000,
    "OCR-10000" := 10000,
    "OCR-25000" := 25000
  ]

  /** `getPagesForSku`: the table's page count, 0 for a missing, empty or
      unlisted SKU. */
  function GetPagesForSku(sku: Option<string>): (pages: int)
    ensures !Truthy(sku) ==> pages == 0
    ensures Truthy(sku) && sku.value !in SkuToPages ==> pages == 0
    ensures Truthy(sku) && sku.value in SkuToPages ==> pages == SkuToPages[sku.value]
  {
    if !Truthy(sku) then 0
    else if sku.value in SkuToPages then SkuToPages[sku.value]
    else 0
  }

  /** `isOcrCreditsSku`: the SKU is present and a key of the table. */
  function IsOcrCreditsSku(sku: Option<string>): (r: bool)
    ensures !Truthy(sku) ==> !r
  {
    Truthy(sku) && sku.value in SkuToPages
  }

  /** Every page count in the table is a positive multiple of 500. */
  lemma TableValuesArePositiveMultiplesOf500()
    ensures forall s :: s in SkuToPages ==> SkuToPages[s] > 0 && SkuToPages[s] % 500 == 0
  {
    forall s | s in SkuToPages
      ensures SkuToPages[s] > 0 && SkuToPages[s] % 500 == 0
    {
      assert s in {"OCR-500", "OCR-1000", "OCR-2000", "OCR-5000", "OCR-10000", "OCR-25000"};
    }
  }

  /** No table key is empty, so the "missing SKU" guard never hides a listed
      product: `isOcrCreditsSku(s)` holds exactly for the keys of the table. */
  lemma IsOcrCreditsSkuIffListed(sku: Option<string>)
    ensures IsOcrCreditsSku(sku) <==> sku.Some? && sku.value in SkuToPages
  {
    assert "" !in SkuToPages;
  }

  /** The two lookups agree: a SKU yields pages exactly when it is an OCR
      credits product. */
  lemma PagesPositiveIffOcrCreditsSku(sku: Option<string>)
    ensures GetPagesForSku(sku) > 0 <==> IsOcrCreditsSku(sku)
  {
    TableValuesArePositiveMultiplesOf500();
  }
}
