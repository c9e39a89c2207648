/**
 * The deterministic part of the storefront's service layer (src/services/api.js):
 * the view-model transformation `transformCollectionsData` and the two
 * response-body classifiers of `createUser` and `placeOrder`.
 *
 * The backend's JSON records are datatypes; a field the backend may omit is an
 * `Option`, and a list it may omit is a `seq` (an omitted list and an empty one
 * transform alike). JavaScript's `x || d` treats `''` and `0` as missing too,
 * which `OrElse` and `GetOr` reproduce.
 */
module Api {
  import opened Wrappers
  import opened Strings

  // ---------------------------------------------------------------- raw records

  datatype RawBenefit = RawBenefit(id: int, logo: Option<string>, value: Option<string>, description: Option<string>)
  datatype RawLovePoint = RawLovePoint(value: Option<string>)
  datatype RawDimension = RawDimension(name: Option<string>, unit: Option<string>)
  datatype RawDetail = RawDetail(id: int, value: Option<string>, dimension: Option<RawDimension>)
  /** `username` is `review.user?.username`: absent when the review has no user. */
  datatype RawReview = RawReview(id: int, username: Option<string>, rating: Option<int>,
                                 createdOn: Option<string>, modifiedOn: Option<string>, description: Option<string>)
  datatype RawReviewsMeta = RawReviewsMeta(rating: Option<real>, reviews: Option<int>)
  datatype RawDiscount = RawDiscount(enable: bool, discount: int)
  datatype RawImage = RawImage(base64: Option<string>, catalogImage: bool)
  datatype RawItem = RawItem(
    id: int, name: string, description: Option<string>, price: Option<int>,
    discounts: Option<RawDiscount>, images: seq<RawImage>,
    createdOn: Option<string>, modifiedOn: Option<string>,
    benefits: seq<RawBenefit>, productLovePoints: seq<RawLovePoint>, productDetails: seq<RawDetail>,
    about: Option<string>, reviews: seq<RawReview>, reviewsMetaData: Option<RawReviewsMeta>)

  // ---------------------------------------------------------------- view model

  datatype Benefit = Benefit(id: int, logo: string, value: string, description: string)
  datatype Specification = Specification(id: int, labelText: string, value: string)  // `label` in the source; a keyword here
  datatype Review = Review(id: int, userName: string, rating: int, date: string, comment: string)
  datatype ReviewsMeta = ReviewsMeta(averageRating: real, totalReviews: int)
  datatype Product = Product(
    id: int, name: string, description: string,
    price: int, discountedPrice: int, hasDiscount: bool, discountPercentage: int,
    image: string, images: seq<string>, category: string,
    createdOn: Option<string>, modifiedOn: Option<string>,
    benefits: seq<Benefit>, features: seq<string>, specifications: seq<Specification>,
    about: string, reviews: seq<Review>, reviewsMetaData: Option<ReviewsMeta>)
  {
    /** The price a buyer pays per unit, as the cart and order views compute it. */
    function UnitPrice(): int {
      if hasDiscount then discountedPrice else price
    }

    /** The review count shown with a product: the server's summary when there is one, else the number of reviews. */
    function TotalReviews(): (n: int)
      ensures reviewsMetaData.None? ==> n == |reviews|
      ensures reviewsMetaData.Some? ==> n == reviewsMetaData.value.totalReviews
    {
      if reviewsMetaData.Some? then reviewsMetaData.value.totalReviews else |reviews|
    }
  }

  const NewCategory := "new"

  /** `s || d` for a string that may be absent. */
  function OrElse(s: Option<string>, d: string): string {
    if s.Some? && s.value != "" then s.value else d
  }

  // ---------------------------------------------------------------- benefits, features, specifications

  /** A benefit badge; a logo that is absent or only white space becomes `''`, a missing value or description `''`. */
  function TransformBenefit(b: RawBenefit): (r: Benefit)
    ensures r.id == b.id
    ensures r.logo == "" <==> b.logo.None? || AllSpace(b.logo.value)
    ensures r.logo != "" ==> r.logo == b.logo.value
    ensures r.value == if b.value.Some? then b.value.value else ""
    ensures r.description == if b.description.Some? then b.description.value else ""
  {
    if b.logo.Some? then TrimEmptyIff(b.logo.value); Benefit(b.id, LogoOf(b.logo), OrElse(b.value, ""), OrElse(b.description, ""))
    else Benefit(b.id, "", OrElse(b.value, ""), OrElse(b.description, ""))
  }

  function LogoOf(logo: Option<string>): string {
    if logo.Some? && logo.value != "" && Trim(logo.value) != "" then logo.value else ""
  }

  /** The displayed value of a product detail: `${value}${unit ? ' ' + unit : ''}`, trimmed. */
  function SpecValue(value: Option<string>, dimension: Option<RawDimension>): (r: string)
    ensures IsTrimmed(r)
    ensures r == Trim((if value.Some? then value.value else "")
                      + (if dimension.Some? && dimension.value.unit.Some? && dimension.value.unit.value != ""
                         then " " + dimension.value.unit.value else ""))
  {
    var unit := if dimension.Some? then OrElse(dimension.value.unit, "") else "";
    var suffix := if unit != "" then " " + unit else "";
    Trim(OrElse(value, "") + suffix)
  }

  /** A value and unit that carry no white space of their own at the ends read as `value unit`. */
  lemma {:induction false} SpecValueWithUnit(v: string, u: string)
    requires v != "" && u != "" && IsTrimmed(v) && IsTrimmed(u)
    ensures SpecValue(Some(v), Some(RawDimension(None, Some(u)))) == v + " " + u
  {
    var s := v + " " + u;
    assert s == v + (" " + u);
    assert s[0] == v[0] && s[|s| - 1] == u[|u| - 1];
    assert IsTrimmed(s);
  }

  function TransformDetail(d: RawDetail): (r: Specification)
    ensures r.id == d.id && IsTrimmed(r.value)
    ensures r.labelText == if d.dimension.Some? && d.dimension.value.name.Some? then d.dimension.value.name.value else ""
    ensures r.value == SpecValue(d.value, d.dimension)
  {
    var caption := if d.dimension.Some? then OrElse(d.dimension.value.name, "") else "";
    Specification(d.id, caption, SpecValue(d.value, d.dimension))
  }

  // ---------------------------------------------------------------- reviews

  /** A review with its defaults; `now` stands for `new Date().toISOString()`. */
  function TransformReview(rv: RawReview, now: string): (r: Review)
    ensures r.id == rv.id
    ensures r.userName != ""
    ensures r.userName == if rv.username.Some? && rv.username.value != "" then rv.username.value else "Anonymous"
    ensures r.rating == if rv.rating.Some? then rv.rating.value else 0
    ensures r.comment == if rv.description.Some? then rv.description.value else ""
    ensures r.date == (if rv.createdOn.Some? && rv.createdOn.value != "" then rv.createdOn.value
                       else if rv.modifiedOn.Some? && rv.modifiedOn.value != "" then rv.modifiedOn.value
                       else now)
  {
    Review(rv.id, OrElse(rv.username, "Anonymous"), rv.rating.GetOr(0),
           OrElse(rv.createdOn, OrElse(rv.modifiedOn, now)), OrElse(rv.description, ""))
  }

  function TransformMeta(m: Option<RawReviewsMeta>): (r: Option<ReviewsMeta>)
    ensures r.Some? <==> m.Some?
    ensures m.Some? ==> r.value.averageRating == if m.value.rating.Some? then m.value.rating.value else 0.0
    ensures m.Some? ==> r.value.totalReviews == if m.value.reviews.Some? then m.value.reviews.value else 0
  {
    if m.Some? then Some(ReviewsMeta(m.value.rating.GetOr(0.0), m.value.reviews.GetOr(0))) else None
  }

  // ---------------------------------------------------------------- discount

  /** `discountData && discountData.enable && discountData.discount > 0`, as a truth value. */
  predicate HasDiscount(d: Option<RawDiscount>) {
    d.Some? && d.value.enable && d.value.discount > 0
  }

  /** `Math.round(x)`: the nearest integer, halves rounded up. */
  function MathRound(x: real): int {
    (x + 0.5).Floor
  }

  /**
   * `Math.round(price - (price * pct / 100))` computed on exact rationals. On integers
   * the rounding is exact: `floor((price * (100 - pct) + 50) / 100)`.
   */
  function DiscountedPrice(price: int, pct: int): (r: int)
    ensures r == (price * (100 - pct) + 50) / 100
  {
    var n := price * (100 - pct);
    assert price as real - (price * pct) as real / 100.0 + 0.5 == (n + 50) as real / 100.0;
    RealDivFloor(n + 50, 100);
    MathRound(price as real - (price * pct) as real / 100.0)
  }

  lemma {:induction false} RealDivFloor(m: int, k: int)
    requires k > 0
    ensures (m as real / k as real).Floor == m / k
  {
    var q, r := m / k, m % k;
    assert m == q * k + r && 0 <= r < k;
    assert m as real / k as real == q as real + r as real / k as real;
    assert 0.0 <= r as real / k as real < 1.0;
  }

  /** A discount of at most 100% on a non-negative price lands between 0 and the price. */
  lemma {:induction false} DiscountedPriceBounds(price: int, pct: int)
    requires price >= 0 && 0 < pct <= 100
    ensures 0 <= DiscountedPrice(price, pct) <= price
  {
    assert 0 <= price * (100 - pct) <= price * 100;
  }

  // ---------------------------------------------------------------- images

  datatype ImageMeta = ImageMeta(base64: string, catalogImage: bool)

  /** The images with their `base64` defaulted to `''` and the empty ones dropped. */
  function ImagesWithMetadata(raw: seq<RawImage>): (r: seq<ImageMeta>)
    ensures |r| <= |raw|
    ensures forall i :: 0 <= i < |r| ==> r[i].base64 != ""
  {
    if raw == [] then []
    else
      var b := OrElse(raw[0].base64, "");
      (if b != "" then [ImageMeta(b, raw[0].catalogImage)] else []) + ImagesWithMetadata(raw[1..])
  }

  /** One image is kept, with its flag, exactly when its `base64` is present and non-empty. */
  lemma {:induction false} ImagesWithMetadataOne(img: RawImage)
    ensures ImagesWithMetadata([img]) ==
              if img.base64.Some? && img.base64.value != "" then [ImageMeta(img.base64.value, img.catalogImage)] else []
  {
    assert [img][1..] == [];
  }

  /** The filter works piece by piece, so the images kept stay in their order. */
  lemma {:induction false} ImagesWithMetadataAppend(a: seq<RawImage>, b: seq<RawImage>)
    ensures ImagesWithMetadata(a + b) == ImagesWithMetadata(a) + ImagesWithMetadata(b)
  {
    if a == [] {
      assert a + b == b;
    } else {
      assert (a + b)[1..] == a[1..] + b;
      ImagesWithMetadataAppend(a[1..], b);
    }
  }

  /** An image is kept exactly when some raw image carries its non-empty `base64` and its flag. */
  lemma {:induction false} ImagesWithMetadataMembers(raw: seq<RawImage>, m: ImageMeta)
    ensures m in ImagesWithMetadata(raw) <==>
              m.base64 != "" && exists i :: 0 <= i < |raw| && raw[i].base64 == Some(m.base64) && raw[i].catalogImage == m.catalogImage
  {
    if raw != [] {
      ImagesWithMetadataMembers(raw[1..], m);
      if exists i :: 0 <= i < |raw[1..]| && raw[1..][i].base64 == Some(m.base64) && raw[1..][i].catalogImage == m.catalogImage {
        var i :| 0 <= i < |raw[1..]| && raw[1..][i].base64 == Some(m.base64) && raw[1..][i].catalogImage == m.catalogImage;
        assert raw[i + 1] == raw[1..][i];
      }
      if exists i :: 0 <= i < |raw| && raw[i].base64 == Some(m.base64) && raw[i].catalogImage == m.catalogImage {
        var i :| 0 <= i < |raw| && raw[i].base64 == Some(m.base64) && raw[i].catalogImage == m.catalogImage;
        if i > 0 {
          assert raw[1..][i - 1] == raw[i];
        }
      }
    }
  }

  /** `imagesWithMetadata.find(img => img.catalogImage === true)`, as an index. */
  function FirstCatalogIndex(ms: seq<ImageMeta>): (r: Option<nat>)
    ensures r.Some? ==> r.value < |ms| && ms[r.value].catalogImage
    ensures r.Some? ==> forall j :: 0 <= j < r.value ==> !ms[j].catalogImage
    ensures r.None? ==> forall j :: 0 <= j < |ms| ==> !ms[j].catalogImage
  {
    if ms == [] then None
    else if ms[0].catalogImage then Some(0)
    else match FirstCatalogIndex(ms[1..])
      case None => None
      case Some(k) => Some(k + 1)
  }

  /** The catalog image first, then every other image in its original order. */
  function SortedImages(ms: seq<ImageMeta>): (r: seq<ImageMeta>)
    ensures |r| == |ms|
    ensures FirstCatalogIndex(ms).None? ==> r == ms
    ensures FirstCatalogIndex(ms).Some? ==> r[0] == ms[FirstCatalogIndex(ms).value] && r[0].catalogImage
  {
    match FirstCatalogIndex(ms)
    case None => ms
    case Some(k) => [ms[k]] + ms[..k] + ms[k + 1..]
  }

  function Base64s(ms: seq<ImageMeta>): (r: seq<string>)
    ensures |r| == |ms| && forall i :: 0 <= i < |ms| ==> r[i] == ms[i].base64
  {
    seq(|ms|, i requires 0 <= i < |ms| => ms[i].base64)
  }

  /** Moving the catalog image to the front only reorders: nothing is lost or duplicated. */
  lemma {:induction false} SortedImagesPermutes(ms: seq<ImageMeta>)
    ensures |SortedImages(ms)| == |ms|
    ensures multiset(SortedImages(ms)) == multiset(ms)
    ensures forall i :: 0 <= i < |ms| ==> SortedImages(ms)[i] in ms
  {
    match FirstCatalogIndex(ms)
    case None =>
    case Some(k) =>
      assert ms == ms[..k] + [ms[k]] + ms[k + 1..];
      calc {
        multiset(SortedImages(ms));
        multiset([ms[k]]) + multiset(ms[..k]) + multiset(ms[k + 1..]);
        multiset(ms[..k] + [ms[k]] + ms[k + 1..]);
      }
      forall i | 0 <= i < |ms| ensures SortedImages(ms)[i] in ms {
        assert SortedImages(ms)[i] in multiset(ms);
      }
  }

  lemma {:induction false} Base64sConcat(a: seq<ImageMeta>, b: seq<ImageMeta>)
    ensures Base64s(a + b) == Base64s(a) + Base64s(b)
  {
  }

  lemma {:induction false} Base64sOfThree(m: ImageMeta, before: seq<ImageMeta>, after: seq<ImageMeta>)
    ensures Base64s([m] + before + after) == [m.base64] + Base64s(before) + Base64s(after)
  {
    Base64sConcat([m] + before, after);
    Base64sConcat([m], before);
  }

  /** With a catalog image at `k`, its string comes first and the others keep their order. */
  lemma {:induction false} SortedBase64sFront(ms: seq<ImageMeta>, k: nat)
    requires FirstCatalogIndex(ms) == Some(k)
    ensures Base64s(SortedImages(ms)) == [ms[k].base64] + Base64s(ms[..k]) + Base64s(ms[k + 1..])
  {
    var sorted := SortedImages(ms);
    assert sorted == [ms[k]] + ms[..k] + ms[k + 1..];
    Base64sOfThree(ms[k], ms[..k], ms[k + 1..]);
  }

  /** The strings of the images, split around position `k`. */
  lemma {:induction false} Base64sAround(ms: seq<ImageMeta>, k: nat)
    requires k < |ms|
    ensures Base64s(ms) == Base64s(ms[..k]) + [ms[k].base64] + Base64s(ms[k + 1..])
  {
    assert ms == ms[..k] + [ms[k]] + ms[k + 1..];
    Base64sConcat(ms[..k] + [ms[k]], ms[k + 1..]);
    Base64sConcat(ms[..k], [ms[k]]);
  }

  /**
   * On the displayed strings: the first catalog image comes first and the rest keep their
   * order; without a catalog image the order is unchanged; either way only the order changes.
   */
  lemma {:induction false} SortedBase64s(ms: seq<ImageMeta>)
    ensures FirstCatalogIndex(ms).None? ==> Base64s(SortedImages(ms)) == Base64s(ms)
    ensures FirstCatalogIndex(ms).Some? ==>
              var k := FirstCatalogIndex(ms).value;
              Base64s(SortedImages(ms)) == [ms[k].base64] + Base64s(ms[..k]) + Base64s(ms[k + 1..])
    ensures multiset(Base64s(SortedImages(ms))) == multiset(Base64s(ms))
  {
    match FirstCatalogIndex(ms)
    case None =>
    case Some(k) =>
      SortedBase64sFront(ms, k);
      Base64sAround(ms, k);
      var a, b, c := Base64s(ms[..k]), [ms[k].base64], Base64s(ms[k + 1..]);
      assert multiset(b + a + c) == multiset(a + b + c);
  }

  /** The concrete case: `[A, B*, C]` with `B` the catalog image becomes `[B, A, C]`. */
  lemma {:induction false} CatalogImageFirstExample(a: string, b: string, c: string)
    requires a != "" && b != "" && c != ""
    ensures Base64s(SortedImages(ImagesWithMetadata(
              [RawImage(Some(a), false), RawImage(Some(b), true), RawImage(Some(c), false)]))) == [b, a, c]
  {
    var raw := [RawImage(Some(a), false), RawImage(Some(b), true), RawImage(Some(c), false)];
    assert raw[2..][1..] == raw[3..] == [] && raw[1..][1..] == raw[2..];
    assert ImagesWithMetadata(raw[2..]) == [ImageMeta(c, false)];
    assert ImagesWithMetadata(raw[1..]) == [ImageMeta(b, true), ImageMeta(c, false)];
    var ms := ImagesWithMetadata(raw);
    assert ms == [ImageMeta(a, false), ImageMeta(b, true), ImageMeta(c, false)];
    assert FirstCatalogIndex(ms) == Some(1);
  }

  // ---------------------------------------------------------------- the whole record

  /** The image list and the main image of a product. */
  datatype Gallery = Gallery(image: string, images: seq<string>)

  /**
   * The non-empty images with the catalog image moved to the front, and the main image:
   * the catalog image when there is one, else the first image, else `''`.
   */
  function TransformImages(raw: seq<RawImage>): (r: Gallery)
    ensures r.image == if r.images == [] then "" else r.images[0]
    ensures forall i :: 0 <= i < |r.images| ==> r.images[i] != ""
    ensures r.images == Base64s(SortedImages(ImagesWithMetadata(raw)))
  {
    var ms := ImagesWithMetadata(raw);
    SortedImagesPermutes(ms);
    var images := Base64s(SortedImages(ms));
    var catalog := FirstCatalogIndex(ms);
    assert catalog.Some? ==> images[0] == ms[catalog.value].base64;
    var mainImage := if catalog.Some? then ms[catalog.value].base64 else if |images| > 0 then images[0] else "";
    Gallery(mainImage, images)
  }

  /**
   * `images` holds exactly the non-empty images, as a permutation; the first catalog image
   * is at the front and the others keep their relative order.
   */
  lemma {:induction false} TransformImagesOrder(raw: seq<RawImage>)
    ensures var ms := ImagesWithMetadata(raw);
            var r := TransformImages(raw);
            && multiset(r.images) == multiset(Base64s(ms))
            && match FirstCatalogIndex(ms)
               case None => r.images == Base64s(ms)
               case Some(k) => r.images == [ms[k].base64] + Base64s(ms[..k]) + Base64s(ms[k + 1..])
  {
    SortedBase64s(ImagesWithMetadata(raw));
  }

  datatype Pricing = Pricing(price: int, discountedPrice: int, hasDiscount: bool, discountPercentage: int)

  /** The price with `|| 0`, the discount gate, and the rounded discounted price. */
  function TransformPricing(price: Option<int>, discounts: Option<RawDiscount>): (r: Pricing)
    ensures r.price == price.GetOr(0)
    ensures r.hasDiscount <==> HasDiscount(discounts)
    ensures !r.hasDiscount ==> r.discountedPrice == r.price && r.discountPercentage == 0
    ensures r.hasDiscount ==> r.discountPercentage == discounts.value.discount > 0
    ensures r.hasDiscount ==> r.discountedPrice == (r.price * (100 - r.discountPercentage) + 50) / 100
  {
    var p := price.GetOr(0);
    var has := HasDiscount(discounts);
    var pct := if has then discounts.value.discount else 0;
    Pricing(p, if has then DiscountedPrice(p, pct) else p, has, pct)
  }

  function TransformBenefits(bs: seq<RawBenefit>): (r: seq<Benefit>)
    ensures |r| == |bs| && forall i :: 0 <= i < |bs| ==> r[i] == TransformBenefit(bs[i])
  {
    seq(|bs|, i requires 0 <= i < |bs| => TransformBenefit(bs[i]))
  }

  function TransformFeatures(ps: seq<RawLovePoint>): (r: seq<string>)
    ensures |r| == |ps|
    ensures forall i :: 0 <= i < |ps| ==> r[i] == if ps[i].value.Some? then ps[i].value.value else ""
  {
    seq(|ps|, i requires 0 <= i < |ps| => OrElse(ps[i].value, ""))
  }

  function TransformDetails(ds: seq<RawDetail>): (r: seq<Specification>)
    ensures |r| == |ds| && forall i :: 0 <= i < |ds| ==> r[i] == TransformDetail(ds[i])
  {
    seq(|ds|, i requires 0 <= i < |ds| => TransformDetail(ds[i]))
  }

  function TransformReviews(rs: seq<RawReview>, now: string): (r: seq<Review>)
    ensures |r| == |rs| && forall i :: 0 <= i < |rs| ==> r[i] == TransformReview(rs[i], now)
  {
    seq(|rs|, i requires 0 <= i < |rs| => TransformReview(rs[i], now))
  }

  /** One backend record as the views see it. */
  function TransformItem(item: RawItem, now: string): (r: Product)
    ensures r.id == item.id && r.category == NewCategory
    ensures r.price == item.price.GetOr(0)
    ensures r.hasDiscount <==> HasDiscount(item.discounts)
    ensures !r.hasDiscount ==> r.discountedPrice == r.price && r.discountPercentage == 0
    ensures r.hasDiscount ==> r.discountPercentage == item.discounts.value.discount > 0
    ensures r.hasDiscount ==> r.discountedPrice == (r.price * (100 - r.discountPercentage) + 50) / 100
    ensures r.image == if r.images == [] then "" else r.images[0]
    ensures forall i :: 0 <= i < |r.images| ==> r.images[i] != ""
    ensures r.image == TransformImages(item.images).image && r.images == TransformImages(item.images).images
    ensures r.name == item.name && r.createdOn == item.createdOn && r.modifiedOn == item.modifiedOn
    ensures r.description == if item.description.Some? then item.description.value else ""
    ensures r.about == if item.about.Some? then item.about.value else ""
    ensures r.benefits == TransformBenefits(item.benefits) && r.features == TransformFeatures(item.productLovePoints)
    ensures r.specifications == TransformDetails(item.productDetails)
    ensures r.reviews == TransformReviews(item.reviews, now) && r.reviewsMetaData == TransformMeta(item.reviewsMetaData)
  {
    var g := TransformImages(item.images);
    var pr := TransformPricing(item.price, item.discounts);
    Product(
      item.id, item.name, OrElse(item.description, ""),
      pr.price, pr.discountedPrice, pr.hasDiscount, pr.discountPercentage,
      g.image, g.images, NewCategory,
      item.createdOn, item.modifiedOn,
      TransformBenefits(item.benefits), TransformFeatures(item.productLovePoints),
      TransformDetails(item.productDetails), OrElse(item.about, ""),
      TransformReviews(item.reviews, now), TransformMeta(item.reviewsMetaData))
  }

  /** `transformCollectionsData`: every record transformed, in order. */
  function TransformCollections(items: seq<RawItem>, now: string): (r: seq<Product>)
    ensures |r| == |items|
    ensures forall i :: 0 <= i < |items| ==> r[i] == TransformItem(items[i], now)
    ensures forall i :: 0 <= i < |items| ==> r[i].id == items[i].id && r[i].category == NewCategory
    ensures forall p :: p in r ==> p.category == NewCategory
  {
    seq(|items|, i requires 0 <= i < |items| => TransformItem(items[i], now))
  }

  /** The worked example: price 100 with an enabled 25% discount sells at 75. */
  lemma {:induction false} DiscountExample(item: RawItem, now: string)
    requires item.id == 7 && item.price == Some(100) && item.discounts == Some(RawDiscount(true, 25))
    ensures var p := TransformItem(item, now);
            p.id == 7 && p.price == 100 && p.hasDiscount && p.discountPercentage == 25 && p.discountedPrice == 75
  {
  }

  // ---------------------------------------------------------------- response bodies

  /**
   * What `createUser` makes of a successful response's body. `parsed` is what
   * `JSON.parse(text)` yields (`None` when it throws). `None` as the result is the
   * `null` by which the caller learns that the account already exists.
   */
  function CreateUserBody<T>(text: string, parsed: Option<T>): (r: Option<T>)
    ensures r.None? <==> AllSpace(text) || Trim(text) == "null" || parsed.None?
    ensures r.Some? ==> r == parsed
  {
    TrimEmptyIff(text);
    var t := Trim(text);
    if t == "" || t == "null" then None else parsed
  }

  /** `placeOrder`'s reading of a successful response: the parsed body, or `{success: true}`. */
  datatype OrderReply<T> = SuccessFlag | Body(data: T)

  function PlaceOrderBody<T>(text: string, parsed: Option<T>): (r: OrderReply<T>)
    ensures r.SuccessFlag? <==> AllSpace(text) || parsed.None?
    ensures r.Body? ==> parsed == Some(r.data)
  {
    TrimEmptyIff(text);
    if Trim(text) == "" then SuccessFlag
    else match parsed
      case None => SuccessFlag
      case Some(d) => Body(d)
  }
}
