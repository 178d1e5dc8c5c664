/**
 * The two gallery pages: the category buttons read from the CMS, CMS items
 * paired with their uploaded images, and the category filter; the older page
 * filters a fixed list of twelve photos.
 */
module GalleryPages {
  import opened Js

  datatype GalleryImage = GalleryImage(src: string, alt: Option<string>, category: Option<string>)

  /** A CMS gallery item as the list reader returns it. */
  datatype GalleryItem = GalleryItem(alt: Option<string>, category: Option<string>)

  /** `categoriesStr.split(",").map(c => c.trim())`: blank pieces are kept. */
  function Categories(stored: string): (r: seq<string>)
    ensures |r| == |Split(stored, ',')| >= 1
    ensures forall k :: 0 <= k < |r| ==> r[k] == Trim(Split(stored, ',')[k])
  {
    var pieces := Split(stored, ',');
    seq(|pieces|, k requires 0 <= k < |pieces| => Trim(pieces[k]))
  }

  /** `.filter(img => img.src)`. */
  function WithImage(s: seq<GalleryImage>): (r: seq<GalleryImage>)
    ensures |r| <= |s|
    ensures forall k :: 0 <= k < |r| ==> r[k].src != ""
  {
    if s == [] then [] else (if s[0].src != "" then [s[0]] else []) + WithImage(s[1..])
  }

  /** `cmsGalleryImages[i] || ""`. */
  function ImageOf(images: seq<string>, i: nat): string {
    if i < |images| then images[i] else ""
  }

  /** Every CMS item paired with the image at its index. */
  function Paired(items: seq<GalleryItem>, images: seq<string>): (r: seq<GalleryImage>)
    ensures |r| == |items|
    ensures forall i :: 0 <= i < |r| ==> r[i] == GalleryImage(ImageOf(images, i), items[i].alt, items[i].category)
  {
    seq(|items|, i requires 0 <= i < |items| => GalleryImage(ImageOf(images, i), items[i].alt, items[i].category))
  }

  /** `images` of the CMS-backed page. */
  function PageImages(items: seq<GalleryItem>, images: seq<string>, defaults: seq<GalleryImage>): seq<GalleryImage> {
    if |items| > 0 then WithImage(Paired(items, images)) else defaults
  }

  /** An image is shown exactly when it pairs a CMS item with a non-empty upload. */
  lemma {:induction false} WithImageMembers(s: seq<GalleryImage>, x: GalleryImage)
    ensures x in WithImage(s) <==> x in s && x.src != ""
  {
    if s != [] {
      WithImageMembers(s[1..], x);
      assert s == [s[0]] + s[1..];
    }
  }

  /** Defaults only without CMS items: items whose images are all blank show nothing. */
  lemma BlankImagesShowNothing(items: seq<GalleryItem>, images: seq<string>, defaults: seq<GalleryImage>)
    requires items != []
    requires forall i :: 0 <= i < |images| ==> images[i] == ""
    ensures PageImages(items, images, defaults) == []
  {
    var p := Paired(items, images);
    if WithImage(p) != [] {
      var x := WithImage(p)[0];
      WithImageMembers(p, x);
    }
  }

  /** `images.filter(i => i.category === filter)`. */
  function OfCategory(s: seq<GalleryImage>, c: string): (r: seq<GalleryImage>)
    ensures |r| <= |s|
    ensures forall k :: 0 <= k < |r| ==> r[k].category == Some(c)
  {
    if s == [] then [] else (if s[0].category == Some(c) then [s[0]] else []) + OfCategory(s[1..], c)
  }

  /** `filter === "All" ? images : images.filter(...)`. */
  function Filtered(s: seq<GalleryImage>, filter: string): seq<GalleryImage> {
    if filter == "All" then s else OfCategory(s, filter)
  }

  /** `a` is `b` with some entries left out, order kept. */
  predicate Subsequence<T(==)>(a: seq<T>, b: seq<T>)
    decreases |b|
  {
    if a == [] then true
    else if b == [] then false
    else if a[0] == b[0] then Subsequence(a[1..], b[1..])
    else Subsequence(a, b[1..])
  }

  lemma {:induction false} SubsequenceSelf<T>(b: seq<T>)
    ensures Subsequence(b, b)
  {
    if b != [] {
      SubsequenceSelf(b[1..]);
    }
  }

  lemma {:induction false} OfCategorySubsequence(s: seq<GalleryImage>, c: string)
    ensures Subsequence(OfCategory(s, c), s)
  {
    if s != [] {
      OfCategorySubsequence(s[1..], c);
      var rest := OfCategory(s[1..], c);
      if s[0].category == Some(c) {
        assert OfCategory(s, c) == [s[0]] + rest;
        assert ([s[0]] + rest)[1..] == rest;
      } else {
        assert OfCategory(s, c) == rest;
        if rest != [] {
          assert rest[0].category == Some(c);
        }
      }
    }
  }

  /** Filtering keeps exactly the images of the category, in their order. */
  lemma {:induction false} OfCategoryMembers(s: seq<GalleryImage>, c: string, x: GalleryImage)
    ensures x in OfCategory(s, c) <==> x in s && x.category == Some(c)
  {
    if s != [] {
      OfCategoryMembers(s[1..], c, x);
      assert s == [s[0]] + s[1..];
    }
  }

  /** The shown images are always some of the page's images, in order; `All`
      shows every one of them. */
  lemma FilteredIsSubsequence(s: seq<GalleryImage>, filter: string)
    ensures Subsequence(Filtered(s, filter), s)
    ensures filter == "All" ==> Filtered(s, filter) == s
  {
    if filter == "All" {
      SubsequenceSelf(s);
    } else {
      OfCategorySubsequence(s, filter);
    }
  }

  /** A category no image carries shows nothing. */
  lemma {:induction false} UnusedCategoryIsEmpty(s: seq<GalleryImage>, c: string)
    requires c != "All"
    requires forall k :: 0 <= k < |s| ==> s[k].category != Some(c)
    ensures Filtered(s, c) == []
  {
    if s != [] {
      UnusedCategoryIsEmpty(s[1..], c);
    }
  }

  /** The older page's twelve photos. */
  const StaticImages: seq<GalleryImage> := [
    GalleryImage("hero-classroom.jpg", Some("Classroom teaching session"), Some("Teaching")),
    GalleryImage("classroom-interior.jpg", Some("Modern classroom interior"), Some("Classrooms")),
    GalleryImage("students-studying.jpg", Some("Students studying together"), Some("Activities")),
    GalleryImage("students-celebrating.jpg", Some("Students celebrating results"), Some("Events")),
    GalleryImage("science-lab.jpg", Some("Science lab experiments"), Some("Teaching")),
    GalleryImage("sports-day.jpg", Some("Annual sports day"), Some("Events")),
    GalleryImage("prize-distribution.jpg", Some("Prize distribution ceremony"), Some("Events")),
    GalleryImage("math-class.jpg", Some("Mathematics classroom session"), Some("Teaching")),
    GalleryImage("library.jpg", Some("Library and reading area"), Some("Classrooms")),
    GalleryImage("parent-meeting.jpg", Some("Parent-teacher meeting"), Some("Activities")),
    GalleryImage("hero-classroom.jpg", Some("Interactive learning session"), Some("Teaching")),
    GalleryImage("classroom-interior.jpg", Some("Smart classroom setup"), Some("Classrooms"))]

  /** Every static photo carries one of the four real categories. */
  predicate KnownCategory(img: GalleryImage) {
    img.category == Some("Classrooms") || img.category == Some("Teaching")
    || img.category == Some("Activities") || img.category == Some("Events")
  }

  lemma StaticCategoriesKnown()
    ensures forall k :: 0 <= k < |StaticImages| ==> KnownCategory(StaticImages[k])
  {
  }

  /** `All` shows the twelve photos; a category outside the four shows none. */
  lemma StaticFilter(filter: string)
    ensures filter == "All" ==> |Filtered(StaticImages, filter)| == 12
    ensures filter !in {"All", "Classrooms", "Teaching", "Activities", "Events"} ==> Filtered(StaticImages, filter) == []
  {
    if filter !in {"All", "Classrooms", "Teaching", "Activities", "Events"} {
      StaticCategoriesKnown();
      UnusedCategoryIsEmpty(StaticImages, filter);
    }
  }
}
