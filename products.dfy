/**
 * The product catalog (app/data/products.ts): a constant, ordered list of product
 * records, the category list offered for filtering, filtering by category and lookup
 * by id.
 */
module Products {
  import opened Wrappers

  /** A spec entry's value: one string or a list of strings. */
  datatype SpecValue = Single(text: string) | List(items: seq<string>)

  /** One catalog record; `specs` keeps the object's keys in their written order. */
  datatype Product = Product(
    id: string,
    name: string,
    category: string,
    description: string,
    longDescription: string,
    image: string,
    model3d: Option<string>,
    price: Option<string>,
    specs: seq<(string, SpecValue)>,
    features: seq<string>,
    applications: seq<string>,
    rating: real)

  const HyperbaricChamber: Product := Product(
    id := "hyperbaric-oxygen-chamber",
    name := "Hyperbaric Oxygen Therapy Chamber",
    category := "Hyperbaric Therapy",
    description := "Advanced hyperbaric oxygen therapy chamber designed for enhanced healing and recovery.",
    longDescription := "Rollins has mechanically advanced, powerful and captivating at the same time, the new Hyperbaric Chamber offers unprecedented state of the art therapeutic technology.",
    image := "/images/hyperbaric-oxygen-therapy-chamber.png",
    model3d := Some("/models/hyperbaric-chamber.glb"),
    price := None,
    specs := [
      ("Pressure Range", Single("1.3 - 3.0 ATA")),
      ("Chamber Type", Single("Single Person")),
      ("Oxygen Concentration", Single("95% - 100%")),
      ("Session Duration", Single("60 - 90 minutes")),
      ("Safety Features", List(["Emergency release", "Pressure monitoring", "Oxygen monitoring"])),
      ("Certification", Single("FDA Approved"))
    ],
    features := [
      "Enhanced cellular oxygen delivery",
      "Accelerated wound healing",
      "Improved circulation",
      "Reduced inflammation",
      "Neurological support",
      "Athletic recovery enhancement"
    ],
    applications := [
      "Post-surgical recovery",
      "Athletic performance",
      "Anti-aging therapy",
      "Chronic fatigue",
      "Neurological conditions",
      "Wound healing"
    ],
    rating := 4.9)

  const CryoArctic: Product := Product(
    id := "cryo-arctic-chamber",
    name := "°CRYO Arctic Performance",
    category := "Cryotherapy",
    description := "Single-person whole-body cryotherapy chamber with premium design and safety standards.",
    longDescription := "The °CRYO Arctic Performance combines cutting-edge cryotherapy technology with premium design. Deliver the safest and most effective cryo treatments with state-of-the-art temperature control and safety features.",
    image := "/images/cryo-artic.webp",
    model3d := None,
    price := None,
    specs := [
      ("Temperature Range", Single("-110°C to -160°C")),
      ("Session Duration", Single("1 - 3 minutes")),
      ("Chamber Type", Single("Single Person")),
      ("Cooling System", Single("Electric")),
      ("Safety Features", List(["Emergency exit", "Temperature monitoring", "Time control"])),
      ("Power Requirements", Single("380V, 50Hz"))
    ],
    features := [
      "Rapid muscle recovery",
      "Reduced inflammation",
      "Enhanced athletic performance",
      "Improved circulation",
      "Pain relief",
      "Metabolic boost"
    ],
    applications := [
      "Sports recovery",
      "Pain management",
      "Wellness therapy",
      "Anti-aging",
      "Weight management",
      "Inflammation reduction"
    ],
    rating := 4.8)

  const CryoPenguin: Product := Product(
    id := "cryo-penguin",
    name := "°CRYO Penguin",
    category := "Localized Cryotherapy",
    description := "Precision localized cryotherapy device for targeted treatments with pinpoint accuracy.",
    longDescription := "The °CRYO Penguin delivers the safest and most effective localized cryotherapy treatments. With ergonomic design, pre-programmed protocols, and built-in safety features, it handles everything from body contouring to post-sport recovery.",
    image := "/images/cryo-penguin.webp",
    model3d := None,
    price := None,
    specs := [
      ("Temperature", Single("-30°C")),
      ("Treatment Area", Single("Localized zones")),
      ("Session Duration", Single("5 - 15 minutes")),
      ("Nozzle Types", List(["Facial", "Body", "Precision"])),
      ("Safety Features", List(["Automatic shut-off", "Temperature control"])),
      ("Portability", Single("Mobile unit"))
    ],
    features := [
      "Pinpoint accuracy",
      "Flexible treatment options",
      "Ergonomic design",
      "Pre-programmed protocols",
      "Built-in safety features",
      "Cost-effective operation"
    ],
    applications := [
      "Facial treatments",
      "Body contouring",
      "Spot treatments",
      "Post-workout recovery",
      "Aesthetic procedures",
      "Pain relief"
    ],
    rating := 4.7)

  const Ubody900: Product := Product(
    id := "ubody-900-pro",
    name := "Ubody 900 Pro 2.0",
    category := "Red Light Therapy",
    description := "Professional-grade red light therapy device for comprehensive wellness treatments.",
    longDescription := "The Ubody 900 Pro 2.0 offers powerful red and near-infrared light therapy in a professional-grade package. Enhance cellular function, reduce inflammation, and promote healing with this cutting-edge photobiomodulation device.",
    image := "/images/ubody-900.webp",
    model3d := None,
    price := None,
    specs := [
      ("LED Count", Single("900 LEDs")),
      ("Wavelengths", List(["660nm Red", "850nm Near-Infrared"])),
      ("Power Output", Single("300W")),
      ("Treatment Area", Single("24\" x 16\"")),
      ("Timer Settings", Single("5, 10, 15, 20 minutes")),
      ("EMF Rating", Single("Ultra-low EMF"))
    ],
    features := [
      "Dual wavelength therapy",
      "Professional-grade LEDs",
      "Large treatment area",
      "Adjustable intensity",
      "Ultra-low EMF",
      "Modular design"
    ],
    applications := [
      "Skin rejuvenation",
      "Muscle recovery",
      "Pain management",
      "Wound healing",
      "Anti-aging",
      "Cellular health"
    ],
    rating := 4.8)

  const Ubody300: Product := Product(
    id := "ubody-300-pro",
    name := "Ubody 300 Pro 2.0",
    category := "Red Light Therapy",
    description := "Compact red light therapy device perfect for targeted treatments and home use.",
    longDescription := "The Ubody 300 Pro 2.0 delivers targeted red light therapy in a compact, user-friendly design. Perfect for focused treatments, this device provides professional-quality photobiomodulation therapy.",
    image := "/images/ubody-300.webp",
    model3d := None,
    price := None,
    specs := [
      ("LED Count", Single("300 LEDs")),
      ("Wavelengths", List(["660nm Red", "850nm Near-Infrared"])),
      ("Power Output", Single("100W")),
      ("Treatment Area", Single("12\" x 8\"")),
      ("Timer Settings", Single("5, 10, 15, 20 minutes")),
      ("Mounting", Single("Adjustable stand"))
    ],
    features := [
      "Compact design",
      "Dual wavelength",
      "Adjustable positioning",
      "User-friendly interface",
      "Energy efficient",
      "Portable"
    ],
    applications := [
      "Facial treatments",
      "Targeted therapy",
      "Joint pain relief",
      "Wound care",
      "Skin health",
      "Recovery therapy"
    ],
    rating := 4.6)

  const UbodyCollagenBed: Product := Product(
    id := "ubody-collagen-bed-3",
    name := "Ubody Collagen Bed 3.0",
    category := "Red Light Therapy",
    description := "Full-body red light therapy bed with advanced collagen stimulation technology.",
    longDescription := "Rollins has mechanically advanced, powerful and captivating at the same time, the new Collagen Bed offers unprecedented state of the art red light therapy technology.",
    image := "/images/ubody-collagen-bed-3-0.webp",
    model3d := Some("/models/ubody-collagen.glb"),
    price := None,
    specs := [
      ("LED Count", Single("1200+ LEDs")),
      ("Wavelengths", List(["633nm Red", "850nm Near-Infrared"])),
      ("Treatment Area", Single("Full body")),
      ("Session Duration", Single("10 - 20 minutes")),
      ("Bed Dimensions", Single("7ft x 3ft")),
      ("Control System", Single("Digital touch panel"))
    ],
    features := [
      "Full-body coverage",
      "Collagen stimulation",
      "Comfortable bed design",
      "Advanced LED technology",
      "Customizable sessions",
      "Professional grade"
    ],
    applications := [
      "Anti-aging therapy",
      "Skin rejuvenation",
      "Collagen production",
      "Wellness therapy",
      "Recovery enhancement",
      "Aesthetic treatments"
    ],
    rating := 4.9)

  const TheralasLaser: Product := Product(
    id := "theralas-laser",
    name := "Theralas Laser",
    category := "Pain Relief",
    description := "Advanced laser therapy device for effective pain management and tissue healing.",
    longDescription := "The Theralas Laser system delivers precise therapeutic laser energy for pain relief and accelerated healing. This professional-grade device offers multiple treatment protocols for various conditions.",
    image := "/images/theralas-device.webp",
    model3d := None,
    price := None,
    specs := [
      ("Laser Type", Single("Class IV Therapeutic Laser")),
      ("Wavelengths", List(["810nm", "980nm"])),
      ("Power Output", Single("Up to 15W")),
      ("Treatment Modes", List(["Continuous", "Pulsed"])),
      ("Protocols", Single("50+ pre-programmed")),
      ("Display", Single("Color touchscreen"))
    ],
    features := [
      "Precision laser therapy",
      "Multiple wavelengths",
      "Pre-programmed protocols",
      "Intuitive interface",
      "Portable design",
      "Clinical grade"
    ],
    applications := [
      "Chronic pain management",
      "Sports injuries",
      "Arthritis treatment",
      "Wound healing",
      "Rehabilitation",
      "Physical therapy"
    ],
    rating := 4.7)

  const EpmMesoskin: Product := Product(
    id := "epm-mesoskin",
    name := "EPM MesoSkin",
    category := "Aesthetic Medicine",
    description := "Professional mesotherapy device for advanced skin treatments and rejuvenation.",
    longDescription := "The EPM MesoSkin system provides professional-grade mesotherapy treatments for skin rejuvenation, anti-aging, and aesthetic enhancement. Advanced technology meets clinical precision.",
    image := "/images/Mesoskin-DEVICE.webp",
    model3d := None,
    price := None,
    specs := [
      ("Treatment Type", Single("Mesotherapy")),
      ("Depth Control", Single("0.1mm - 3.0mm")),
      ("Speed Settings", Single("5 levels")),
      ("Needle Types", Single("Various gauges")),
      ("Display", Single("LCD screen")),
      ("Portability", Single("Portable unit"))
    ],
    features := [
      "Precision depth control",
      "Multiple speed settings",
      "Ergonomic design",
      "Clinical accuracy",
      "Versatile applications",
      "Professional grade"
    ],
    applications := [
      "Skin rejuvenation",
      "Anti-aging treatments",
      "Scar reduction",
      "Cellulite treatment",
      "Hair restoration",
      "Aesthetic enhancement"
    ],
    rating := 4.5)

  /** `products`, in source order. */
  const Catalog: seq<Product> :=
    [HyperbaricChamber, CryoArctic, CryoPenguin, Ubody900, Ubody300, UbodyCollagenBed, TheralasLaser, EpmMesoskin]

  /** `categories`: the filter choices offered to the visitor. */
  const Categories: seq<string> :=
    ["All", "Hyperbaric Therapy", "Cryotherapy", "Red Light Therapy", "Pain Relief", "Aesthetic Medicine"]

  /** `products.filter(product => product.category === category)`. */
  function FilterCategory(ps: seq<Product>, category: string): (r: seq<Product>)
    ensures |r| <= |ps|
    ensures forall i :: 0 <= i < |r| ==> r[i].category == category && r[i] in ps
    ensures forall p :: p in ps && p.category == category ==> p in r
  {
    if ps == [] then []
    else (if ps[0].category == category then [ps[0]] else []) + FilterCategory(ps[1..], category)
  }

  /** `getProductsByCategory`: "All" returns the catalog itself, any other string filters it. */
  function ProductsByCategory(category: string): seq<Product> {
    if category == "All" then Catalog else FilterCategory(Catalog, category)
  }

  /** The index `products.find` stops at: the first record with this id, or -1. */
  function FindIndex(ps: seq<Product>, id: string): (k: int)
    ensures -1 <= k < |ps|
    ensures 0 <= k ==> ps[k].id == id && forall j :: 0 <= j < k ==> ps[j].id != id
    ensures k == -1 ==> forall j :: 0 <= j < |ps| ==> ps[j].id != id
  {
    if ps == [] then -1
    else if ps[0].id == id then 0
    else
      var k := FindIndex(ps[1..], id);
      if k == -1 then -1 else k + 1
  }

  /** `getProductById`: the first record with this id, or `undefined` (here `None`). */
  function ProductById(id: string): (r: Option<Product>)
    ensures r.Some? ==> r.value in Catalog && r.value.id == id
    ensures r.None? <==> forall p :: p in Catalog ==> p.id != id
  {
    var k := FindIndex(Catalog, id);
    if k == -1 then None else Some(Catalog[k])
  }

  // ----- Order of the filtered list -----

  /** `idx` lists, in increasing order, positions of `ps` that hold the elements of `r`. */
  ghost predicate SubsequenceVia(r: seq<Product>, ps: seq<Product>, idx: seq<int>) {
    |idx| == |r| &&
    (forall i :: 0 <= i < |idx| ==> 0 <= idx[i] < |ps| && ps[idx[i]] == r[i]) &&
    (forall i, j :: 0 <= i < j < |idx| ==> idx[i] < idx[j])
  }

  /** Every position shifted one to the right. */
  ghost function Shift(idx: seq<int>): (r: seq<int>)
    ensures |r| == |idx| && forall i :: 0 <= i < |idx| ==> r[i] == idx[i] + 1
  {
    seq(|idx|, i requires 0 <= i < |idx| => idx[i] + 1)
  }

  /** The positions of `ps` whose record has this category, in increasing order. */
  ghost function MatchPositions(ps: seq<Product>, category: string): seq<int> {
    if ps == [] then []
    else (if ps[0].category == category then [0] else []) + Shift(MatchPositions(ps[1..], category))
  }

  /** A position is in the shifted list exactly when its predecessor is in the original. */
  lemma ShiftMembership(idx: seq<int>, j: int)
    ensures j in Shift(idx) <==> j - 1 in idx
  {
    var st := Shift(idx);
    if j in st {
      var i :| 0 <= i < |st| && st[i] == j;
      assert idx[i] == j - 1;
    }
    if j - 1 in idx {
      var i :| 0 <= i < |idx| && idx[i] == j - 1;
      assert st[i] == j;
    }
  }

  /** The matching positions are exactly the positions of records with this category. */
  lemma {:induction false} MatchPositionsIff(ps: seq<Product>, category: string, j: int)
    requires 0 <= j < |ps|
    ensures j in MatchPositions(ps, category) <==> ps[j].category == category
  {
    var st := Shift(MatchPositions(ps[1..], category));
    if j > 0 {
      MatchPositionsIff(ps[1..], category, j - 1);
      ShiftMembership(MatchPositions(ps[1..], category), j);
    } else {
      ShiftMembership(MatchPositions(ps[1..], category), 0);
      MatchPositionsNonNegative(ps[1..], category);
    }
  }

  /** Matching positions are never negative. */
  lemma {:induction false} MatchPositionsNonNegative(ps: seq<Product>, category: string)
    ensures forall i :: 0 <= i < |MatchPositions(ps, category)| ==> MatchPositions(ps, category)[i] >= 0
  {
    if ps != [] {
      MatchPositionsNonNegative(ps[1..], category);
    }
  }

  /** A subsequence of the tail is a subsequence of the whole list at positions one further on. */
  lemma ShiftedSubsequence(ps: seq<Product>, r: seq<Product>, idx: seq<int>)
    requires ps != [] && SubsequenceVia(r, ps[1..], idx)
    ensures SubsequenceVia(r, ps, Shift(idx))
    ensures forall i :: 0 <= i < |idx| ==> 1 <= Shift(idx)[i]
  {
    var st := Shift(idx);
    forall i | 0 <= i < |st| ensures 1 <= st[i] < |ps| && ps[st[i]] == r[i] {
      assert ps[st[i]] == ps[1..][idx[i]];
    }
  }

  /** Putting the head in front of a subsequence that avoids position 0 gives a subsequence. */
  lemma ConsSubsequence(ps: seq<Product>, r: seq<Product>, idx: seq<int>)
    requires ps != [] && SubsequenceVia(r, ps, idx)
    requires forall i :: 0 <= i < |idx| ==> 1 <= idx[i]
    ensures SubsequenceVia([ps[0]] + r, ps, [0] + idx)
  {
    var r', idx' := [ps[0]] + r, [0] + idx;
    forall i | 0 <= i < |idx'| ensures 0 <= idx'[i] < |ps| && ps[idx'[i]] == r'[i] {
      if i > 0 {
        assert idx'[i] == idx[i - 1] && r'[i] == r[i - 1];
      }
    }
    forall i, j | 0 <= i < j < |idx'| ensures idx'[i] < idx'[j] {
      assert idx'[j] == idx[j - 1];
      if i > 0 {
        assert idx'[i] == idx[i - 1];
      }
    }
  }

  /** The filtered list is the catalog with the other categories struck out: its elements sit
      at strictly increasing positions of `ps`, in the order they have there. */
  lemma {:induction false} FilterIsOrderedSubsequence(ps: seq<Product>, category: string)
    ensures SubsequenceVia(FilterCategory(ps, category), ps, MatchPositions(ps, category))
  {
    if ps != [] {
      var tail := ps[1..];
      FilterIsOrderedSubsequence(tail, category);
      var rt, it := FilterCategory(tail, category), MatchPositions(tail, category);
      ShiftedSubsequence(ps, rt, it);
      if ps[0].category == category {
        assert FilterCategory(ps, category) == [ps[0]] + rt;
        assert MatchPositions(ps, category) == [0] + Shift(it);
        ConsSubsequence(ps, rt, Shift(it));
      } else {
        assert FilterCategory(ps, category) == rt && MatchPositions(ps, category) == Shift(it);
      }
    }
  }

  /** With no record of this category, the filter is empty. */
  lemma {:induction false} FilterWithoutMatch(ps: seq<Product>, category: string)
    requires forall p :: p in ps ==> p.category != category
    ensures FilterCategory(ps, category) == []
  {
    if ps != [] {
      FilterWithoutMatch(ps[1..], category);
    }
  }

  // ----- Properties of the catalog queries -----

  /** "All" returns the whole catalog, in order, unchanged. */
  lemma AllIsWholeCatalog()
    ensures ProductsByCategory("All") == Catalog
  {
  }

  /** Any other category returns exactly the records of that category, in catalog order. */
  lemma CategoryFilter(category: string)
    requires category != "All"
    ensures |ProductsByCategory(category)| <= |Catalog|
    ensures forall p :: p in ProductsByCategory(category) <==> p in Catalog && p.category == category
    ensures SubsequenceVia(ProductsByCategory(category), Catalog, MatchPositions(Catalog, category))
    ensures forall j :: 0 <= j < |Catalog| ==> (j in MatchPositions(Catalog, category) <==> Catalog[j].category == category)
  {
    FilterIsOrderedSubsequence(Catalog, category);
    forall j | 0 <= j < |Catalog| ensures j in MatchPositions(Catalog, category) <==> Catalog[j].category == category {
      MatchPositionsIff(Catalog, category, j);
    }
  }

  /** A category string that no record carries (other than "All") gives the empty list. */
  lemma UnknownCategoryIsEmpty(category: string)
    requires category != "All"
    requires forall p :: p in Catalog ==> p.category != category
    ensures ProductsByCategory(category) == []
  {
    FilterWithoutMatch(Catalog, category);
  }

  /** The catalog's ids are pairwise distinct. */
  lemma IdsDistinct()
    ensures forall i, j :: 0 <= i < j < |Catalog| ==> Catalog[i].id != Catalog[j].id
  {
  }

  /** Since ids are distinct, the lookup returns the one record with that id. */
  lemma LookupIsUnique(id: string, i: int)
    requires 0 <= i < |Catalog| && Catalog[i].id == id
    ensures ProductById(id) == Some(Catalog[i])
  {
    IdsDistinct();
  }

  /** 'Localized Cryotherapy' is not offered as a filter: no offered category other than
      "All" yields its record, and "All" does. */
  lemma LocalizedOnlyThroughAll(category: string)
    requires category in Categories && category != "All"
    ensures "Localized Cryotherapy" !in Categories
    ensures forall p :: p in ProductsByCategory(category) ==> p.category != "Localized Cryotherapy"
    ensures CryoPenguin in ProductsByCategory("All") && CryoPenguin.category == "Localized Cryotherapy"
  {
    assert |category| != 21;
  }

  /** Every other record is reachable through its own offered category. */
  lemma OtherCategoriesOffered(i: int)
    requires 0 <= i < |Catalog| && Catalog[i].category != "Localized Cryotherapy"
    ensures Catalog[i].category in Categories
    ensures Catalog[i] in ProductsByCategory(Catalog[i].category)
  {
  }
}
