/**
 * The facilities page: CMS facility items are mapped to display cards whose
 * highlights come from a comma-separated field and whose image, icon and
 * colours cycle through eight-entry lists; without CMS items the built-in
 * cards are shown.
 */
module FacilitiesPage {
  import opened Js

  datatype Icon = UserCheck | Monitor | FileText | BookOpen | HelpCircle | HeartHandshake | Wifi | IndianRupee

  datatype Asset = ClassroomInterior | Library | ScienceLab | MathClass

  /** Either an uploaded image URL or a bundled asset. */
  datatype Image = Uploaded(url: string) | Bundled(asset: Asset)

  datatype Palette = Palette(color: string, bgLight: string)

  const FacilityIcons: seq<Icon> := [UserCheck, Monitor, FileText, BookOpen, HelpCircle, HeartHandshake, Wifi, IndianRupee]

  const FacilityColors: seq<Palette> := [
    Palette("from-[hsl(220,80%,50%)] to-[hsl(220,90%,35%)]", "bg-[hsl(220,80%,96%)]"),
    Palette("from-[hsl(160,70%,40%)] to-[hsl(160,80%,30%)]", "bg-[hsl(160,50%,95%)]"),
    Palette("from-[hsl(280,60%,50%)] to-[hsl(280,70%,35%)]", "bg-[hsl(280,40%,96%)]"),
    Palette("from-[hsl(40,95%,50%)] to-[hsl(30,95%,45%)]", "bg-[hsl(40,80%,95%)]"),
    Palette("from-[hsl(350,70%,50%)] to-[hsl(350,80%,40%)]", "bg-[hsl(350,50%,96%)]"),
    Palette("from-[hsl(200,70%,50%)] to-[hsl(200,80%,35%)]", "bg-[hsl(200,50%,95%)]"),
    Palette("from-[hsl(170,60%,45%)] to-[hsl(170,70%,30%)]", "bg-[hsl(170,40%,95%)]"),
    Palette("from-[hsl(130,60%,40%)] to-[hsl(130,70%,30%)]", "bg-[hsl(130,40%,95%)]")]

  const ImageFallbacks: seq<Asset> := [ClassroomInterior, MathClass, Library, ScienceLab, ClassroomInterior, MathClass, Library, ScienceLab]

  /** A CMS facility item as the list reader returns it. */
  datatype FacilityItem = FacilityItem(title: Option<string>, desc: Option<string>, highlights: Option<string>)

  /** A displayed facility card. */
  datatype Facility = Facility(title: Option<string>, desc: Option<string>, highlights: seq<string>,
                               image: Image, icon: Icon, palette: Palette)

  /** `f.highlights ? f.highlights.split(",").map(h => h.trim()) : []`:
      blank pieces are kept. */
  function Highlights(h: Option<string>): (r: seq<string>)
    ensures !Truthy(h) ==> r == []
    ensures Truthy(h) ==> |r| == |Split(h.value, ',')|
    ensures Truthy(h) ==> forall k :: 0 <= k < |r| ==> r[k] == Trim(Split(h.value, ',')[k])
  {
    if Truthy(h) then
      var pieces := Split(h.value, ',');
      seq(|pieces|, k requires 0 <= k < |pieces| => Trim(pieces[k]))
    else []
  }

  /** A highlight string without commas is one highlight. */
  lemma SingleHighlight(h: string)
    requires h != "" && ',' !in h
    ensures Highlights(Some(h)) == [Trim(h)]
  {
    SplitWithoutSeparator(h, ',');
  }

  /** `cmsFacilityImages[i] || facilityImageFallbacks[i % 8]`. */
  function ImageAt(images: seq<string>, i: nat): (img: Image)
    ensures i < |images| && images[i] != "" ==> img == Uploaded(images[i])
    ensures i >= |images| || images[i] == "" ==> img == Bundled(ImageFallbacks[i % 8])
  {
    if i < |images| && images[i] != "" then Uploaded(images[i]) else Bundled(ImageFallbacks[i % |ImageFallbacks|])
  }

  function CardOf(item: FacilityItem, images: seq<string>, i: nat): Facility {
    Facility(item.title, item.desc, Highlights(item.highlights), ImageAt(images, i),
             FacilityIcons[i % |FacilityIcons|], FacilityColors[i % |FacilityColors|])
  }

  /** `facilities`: one card per CMS item, in order, or the built-in cards
      when there is none. */
  function Facilities(items: seq<FacilityItem>, images: seq<string>, defaults: seq<Facility>): (r: seq<Facility>)
    ensures items == [] ==> r == defaults
    ensures items != [] ==> |r| == |items|
    ensures items != [] ==> forall i :: 0 <= i < |r| ==> r[i] == CardOf(items[i], images, i)
  {
    if items == [] then defaults
    else seq(|items|, i requires 0 <= i < |items| => CardOf(items[i], images, i))
  }

  /** Each card keeps its item's title and description, and its icon and
      colours repeat every eight cards. */
  lemma CardsCycle(items: seq<FacilityItem>, images: seq<string>, defaults: seq<Facility>, i: nat)
    requires i + 8 < |items|
    ensures var r := Facilities(items, images, defaults);
      && r[i].title == items[i].title && r[i].desc == items[i].desc
      && r[i + 8].icon == r[i].icon && r[i + 8].palette == r[i].palette
      && (r[i].image.Bundled? && r[i + 8].image.Bundled? ==> r[i + 8].image == r[i].image)
  {
    assert (i + 8) % 8 == i % 8;
  }

  datatype Stat = Stat(value: string, caption: string)

  /** `stats`: the CMS stats, or the built-in four. */
  function Stats(cmsStats: seq<Stat>): (r: seq<Stat>)
    ensures cmsStats != [] ==> r == cmsStats
    ensures cmsStats == [] ==> |r| == 4
  {
    if |cmsStats| > 0 then cmsStats
    else [Stat("8+", "Key Facilities"), Stat("15+", "Years Experience"), Stat("100%", "Success Rate"), Stat("500+", "Happy Students")]
  }
}
