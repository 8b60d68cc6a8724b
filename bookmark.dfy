/** BookmarkDto.from: the view of a bookmarked office, with its representative
    picture and the average rating derived from the running review totals. */
module Bookmarks {
  import opened Errors
  import opened Offices
  import Decimal

  datatype Picture = Picture(fileId: string, fileName: string)

  datatype Bookmark = Bookmark(id: int, officeId: int, office: OfficeState)

  datatype BookmarkDto = BookmarkDto(
    id: int,
    officeId: int,
    officeName: string,
    officeAddress: string,
    officeImagePath: string,
    officeReviewAmount: string,
    officeReviewRate: real)

  function Abs(x: int): nat {
    if x < 0 then -x else x
  }

  /** Java's `/` on long: the quotient truncated toward zero (Dafny's `/` is Euclidean). */
  function JavaDiv(a: int, b: int): (q: int)
    requires b != 0
    ensures a >= 0 && b > 0 ==> q == a / b
    ensures JavaDivides(a, b, q)
  {
    var k := Abs(a) / Abs(b);
    JavaDivCases(a, b, k);
    if (a >= 0) == (b > 0) then k else -k
  }

  /** q is the quotient of a by b rounded toward zero: the remainder a - q * b has
      the sign of a and is smaller in size than b. */
  ghost predicate JavaDivides(a: int, b: int, q: int) {
    var r := a - q * b;
    Abs(r) < Abs(b) && (r == 0 || (r > 0) == (a > 0))
  }

  lemma EuclidNat(n: int, d: int)
    requires 0 <= n && 0 < d
    ensures n == (n / d) * d + n % d && 0 <= n % d < d && n % d <= n
  {
    assert (n / d) * d >= 0;
  }

  lemma SignedProduct(a: int, b: int, k: int, q: int)
    requires b != 0 && q == if (a >= 0) == (b > 0) then k else -k
    ensures q * b == if a >= 0 then k * Abs(b) else -(k * Abs(b))
  {
  }

  lemma JavaDivCases(a: int, b: int, k: int)
    requires b != 0 && k == Abs(a) / Abs(b)
    ensures JavaDivides(a, b, if (a >= 0) == (b > 0) then k else -k)
  {
    var q := if (a >= 0) == (b > 0) then k else -k;
    EuclidNat(Abs(a), Abs(b));
    SignedProduct(a, b, k, q);
  }

  /** Math.round(x * 100.0) / 100.0, with Math.round as floor(y + 0.5). */
  function RoundHundredths(x: real): real {
    (x * 100.0 + 0.5).Floor as real / 100.0
  }

  /** Rounding a whole number to two decimals gives it back. */
  lemma RoundHundredthsOfWhole(v: int)
    ensures RoundHundredths(v as real) == v as real
  {
    assert (v as real * 100.0 + 0.5).Floor == v * 100;
  }

  /** Rounding moves a value by at most half a hundredth. */
  lemma RoundHundredthsClose(x: real)
    ensures x - 0.005 < RoundHundredths(x) <= x + 0.005
  {
    var f := (x * 100.0 + 0.5).Floor;
    assert x * 100.0 + 0.5 - 1.0 < f as real <= x * 100.0 + 0.5;
  }

  /** The rounded value is a whole number of hundredths. */
  lemma RoundHundredthsOnGrid(x: real)
    ensures (RoundHundredths(x) * 100.0).Floor as real == RoundHundredths(x) * 100.0
  {
    var f := (x * 100.0 + 0.5).Floor;
    assert RoundHundredths(x) * 100.0 == f as real;
  }

  /** Rounding to two decimals keeps a value between two whole numbers between them. */
  lemma RoundHundredthsBetween(x: real, lo: int, hi: int)
    requires lo as real <= x <= hi as real
    ensures lo as real <= RoundHundredths(x) <= hi as real
  {
    var y := x * 100.0 + 0.5;
    var f := y.Floor;
    var low := lo * 100;
    var high := hi * 100;
    assert low as real == lo as real * 100.0;
    assert high as real == hi as real * 100.0;
    assert low as real <= y;
    assert f as real <= y < f as real + 1.0;
    assert low <= f <= high;
    assert RoundHundredths(x) == f as real / 100.0;
  }

  /** The "None" placeholder when there are no pictures (null or empty), else the first one's file name. */
  function RepresentImagePath(imagePaths: Option<seq<Picture>>): (path: string)
    ensures imagePaths.None? || imagePaths.value == [] ==> path == "None"
    ensures imagePaths.Some? && imagePaths.value != [] ==> path == imagePaths.value[0].fileName
  {
    if imagePaths.None? || imagePaths.value == [] then "None" else imagePaths.value[0].fileName
  }

  /** The average rating as written: zero when there is nothing to divide, otherwise the
      truncated quotient of the long columns, then rounded to two decimals. */
  function AverageRate(reviewCount: int, totalRate: int): (rate: real)
    ensures reviewCount == 0 || totalRate == 0 ==> rate == 0.0
    ensures reviewCount != 0 && totalRate != 0 ==> rate == JavaDiv(totalRate, reviewCount) as real
    ensures reviewCount > 0 && totalRate >= 0 ==> rate == (totalRate / reviewCount) as real
  {
    if reviewCount == 0 || totalRate == 0 then 0.0
    else
      RoundHundredthsOfWhole(JavaDiv(totalRate, reviewCount));
      RoundHundredths(JavaDiv(totalRate, reviewCount) as real)
  }

  /** The average rating rounded to two decimals, computed on the exact quotient. */
  function IntendedAverageRate(reviewCount: int, totalRate: int): (rate: real)
    ensures reviewCount == 0 ==> rate == 0.0
    ensures reviewCount != 0 ==>
              var exact := totalRate as real / reviewCount as real;
              exact - 0.005 < rate <= exact + 0.005
    ensures (rate * 100.0).Floor as real == rate * 100.0
  {
    if reviewCount == 0 || totalRate == 0 then 0.0
    else
      RoundHundredthsClose(totalRate as real / reviewCount as real);
      RoundHundredthsOnGrid(totalRate as real / reviewCount as real);
      RoundHundredths(totalRate as real / reviewCount as real)
  }

  /** Two reviews totalling 9 show 4.0, not 4.5: the division truncates before the rounding. */
  lemma TruncatedAverageExample()
    ensures AverageRate(2, 9) == 4.0
    ensures IntendedAverageRate(2, 9) == 4.5
  {
    assert (4.5 * 100.0 + 0.5).Floor == 450;
  }

  /** BookmarkDto.from: ids, name and address copied, the review count rendered in
      decimal, and the average rating computed on the exact quotient. */
  function From(bookmark: Bookmark, imagePaths: Option<seq<Picture>>): (dto: BookmarkDto)
    ensures dto.id == bookmark.id && dto.officeId == bookmark.officeId
    ensures dto.officeName == bookmark.office.name
    ensures dto.officeAddress == bookmark.office.officeAddress
    ensures dto.officeImagePath == RepresentImagePath(imagePaths)
    ensures dto.officeReviewAmount == Decimal.Render(bookmark.office.reviewCount)
    ensures Decimal.Parse(dto.officeReviewAmount) == bookmark.office.reviewCount
    ensures dto.officeReviewRate == IntendedAverageRate(bookmark.office.reviewCount, bookmark.office.totalRate)
  {
    var office := bookmark.office;
    Decimal.RenderRoundTrip(office.reviewCount);
    BookmarkDto(
      bookmark.id,
      bookmark.officeId,
      office.name,
      office.officeAddress,
      RepresentImagePath(imagePaths),
      Decimal.Render(office.reviewCount),
      IntendedAverageRate(office.reviewCount, office.totalRate))
  }
}
