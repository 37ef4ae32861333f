/**
 * The banner carousel: the current slide index moved by the arrows, the
 * auto-advance timer and the dots, plus two pure decisions made per banner,
 * where its image is fetched from and where a click on it leads.
 */
module Banner {
  import opened Text

  /** The backend host that serves uploaded media. */
  const Host: string := "https://ecom-parent-project.onrender.com"

  /** The media root is an `http…` URL. */
  lemma MediaRootIsHttp()
    ensures StartsWith(Host + "/media/", "http")
  {
    assert Host[0] == 'h' && Host[1] == 't' && Host[2] == 't' && Host[3] == 'p';
    assert Host[..4] == "http";
    PrefixOfConcat(Host, "/media/", "http");
  }

  /** `(i + 1) % n`: the next slide, wrapping to the first. */
  function NextIndex(i: nat, n: nat): (r: nat)
    requires i < n
    ensures r < n
    ensures i + 1 < n ==> r == i + 1
    ensures i + 1 == n ==> r == 0
  {
    (i + 1) % n
  }

  /** `i === 0 ? n - 1 : i - 1`: the previous slide, wrapping to the last. */
  function PrevIndex(i: nat, n: nat): (r: nat)
    requires i < n
    ensures r < n
  {
    if i == 0 then n - 1 else i - 1
  }

  /** Previous undoes next, and next undoes previous. */
  lemma NextPrevInverse(i: nat, n: nat)
    requires i < n
    ensures PrevIndex(NextIndex(i, n), n) == i
    ensures NextIndex(PrevIndex(i, n), n) == i
  {
  }

  /** Arrows, dots and the timer exist only with more than one banner. */
  predicate ControlsShown(n: nat) {
    n > 1
  }

  /** The carousel's state: how many banners there are and which one is shown. */
  class Carousel {
    const count: nat
    var index: nat

    ghost predicate Valid()
      reads this
    {
      count == 0 || index < count
    }

    constructor (n: nat)
      ensures count == n && index == 0 && Valid()
    {
      count := n;
      index := 0;
    }

    /** `goToNext`. */
    method GoToNext()
      requires Valid() && count > 0
      modifies this
      ensures Valid() && index == NextIndex(old(index), count)
    {
      index := NextIndex(index, count);
    }

    /** `goToPrevious`. */
    method GoToPrevious()
      requires Valid() && count > 0
      modifies this
      ensures Valid() && index == PrevIndex(old(index), count)
    {
      index := PrevIndex(index, count);
    }

    /** One firing of the five-second timer, which is installed only for more than one banner. */
    method Tick()
      requires Valid()
      modifies this
      ensures Valid()
      ensures ControlsShown(count) ==> index == NextIndex(old(index), count)
      ensures !ControlsShown(count) ==> index == old(index)
    {
      if count > 1 {
        index := NextIndex(index, count);
      }
    }

    /** A click on dot `k`. */
    method SelectDot(k: nat)
      requires Valid() && k < count
      modifies this
      ensures Valid() && index == k
    {
      index := k;
    }
  }

  /**
   * The `src` of a banner image: an absolute `http…` URL as is, a `/media/…`
   * path on the backend host, and any other value as a file under the host's
   * `/media/` directory.
   */
  function ImageUrl(image: string): (r: string)
    ensures StartsWith(r, "http")
    ensures EndsWith(r, image)
    ensures StartsWith(image, "http") <==> r == image
    ensures !StartsWith(image, "http") ==> StartsWith(r, Host + "/media/")
    ensures !StartsWith(image, "http") && StartsWith(image, "/media/") ==> r == Host + "/media/" + image[7..]
    ensures !StartsWith(image, "http") && !StartsWith(image, "/media/") ==> r == Host + "/media/" + image
  {
    if StartsWith(image, "http") then image
    else if StartsWith(image, "/media/") then
      assert image == "/media/" + image[7..];
      assert Host + image == (Host + "/media/") + image[7..];
      MediaRootIsHttp();
      PrefixOfConcat(Host + "/media/", image[7..], "http");
      PrefixOfConcat(Host + "/media/", image[7..], Host + "/media/");
      SuffixOfConcat(Host, image);
      Host + image
    else
      MediaRootIsHttp();
      PrefixOfConcat(Host + "/media/", image, "http");
      PrefixOfConcat(Host + "/media/", image, Host + "/media/");
      SuffixOfConcat(Host + "/media/", image);
      Host + "/media/" + image
  }

  /** A path already under `/media/` is placed on the host once: the `/media/` segment is not doubled. */
  lemma MediaPathNotDoubled(file: string)
    ensures ImageUrl("/media/" + file) == Host + "/media/" + file
  {
    var image := "/media/" + file;
    assert image[..7] == "/media/" && image[7..] == file;
    assert image[0] == '/';
  }

  /** Resolving an already resolved URL changes nothing. */
  lemma ImageUrlIdempotent(image: string)
    ensures ImageUrl(ImageUrl(image)) == ImageUrl(image)
  {
  }

  /** The fields of a banner that decide the click; an absent or zero id is `0`, an absent link `""`. */
  datatype BannerRecord = BannerRecord(link: string, productId: nat, categoryId: nat)

  datatype ClickAction = OpenWindow(url: string) | Navigate(path: string) | NoAction

  /**
   * `handleBannerClick`: a link other than `#` wins (absolute links open a new
   * window, others navigate); then the product page; then the category page.
   */
  function Click(b: BannerRecord): (r: ClickAction)
    ensures r.OpenWindow? <==> b.link != "" && b.link != "#" && StartsWith(b.link, "http")
    ensures r.OpenWindow? ==> r.url == b.link
    ensures b.link != "" && b.link != "#" && !StartsWith(b.link, "http") ==> r == Navigate(b.link)
    ensures r.NoAction? <==> (b.link == "" || b.link == "#") && b.productId == 0 && b.categoryId == 0
    ensures (b.link == "" || b.link == "#") && b.productId != 0 ==>
      r == Navigate("/product/" + NatToString(b.productId))
    ensures (b.link == "" || b.link == "#") && b.productId == 0 && b.categoryId != 0 ==>
      r == Navigate("/category/" + NatToString(b.categoryId))
  {
    if b.link != "" && b.link != "#" then
      if StartsWith(b.link, "http") then OpenWindow(b.link) else Navigate(b.link)
    else if b.productId != 0 then Navigate("/product/" + NatToString(b.productId))
    else if b.categoryId != 0 then Navigate("/category/" + NatToString(b.categoryId))
    else NoAction
  }

  /**
   * Without a usable link (none, or `#`), a product id wins over a category
   * id: banners that differ only in their category id lead to the same page.
   */
  lemma ProductBeforeCategory(b: BannerRecord, otherCategory: nat)
    requires (b.link == "" || b.link == "#") && b.productId != 0
    ensures Click(b) == Navigate("/product/" + NatToString(b.productId))
    ensures Click(b) == Click(b.(categoryId := otherCategory))
  {
  }
}
