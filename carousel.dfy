/** The public gallery carousel: a fixed list of eight pictures of the salon
    and the `currentSlide` index that the arrows step through modulo the list
    length and that the indicators and thumbnails set directly. */
module Carousel {
  import opened SiteContentHook

  datatype GalleryItem = GalleryItem(kind: string, title: string, description: string, image: string)

  /** `galleryItems`, in display order. */
  const GalleryItems: seq<GalleryItem> := [
    GalleryItem("salon", "Intérieur du salon", "Ambiance chaleureuse et moderne",
                "/téléchargement (1).jpeg"),
    GalleryItem("salon", "Espace de travail", "Équipements professionnels L'Oréal",
                "/téléchargement (2).jpeg"),
    GalleryItem("salon", "Zone de coiffage", "Design moderne et fonctionnel",
                "/téléchargement (3).jpeg"),
    GalleryItem("salon", "Accueil du salon", "Atmosphère accueillante et professionnelle",
                "/téléchargement (4).jpeg"),
    GalleryItem("salon", "Vue d'ensemble", "L'élégance au service de votre beauté",
                "/téléchargement (1) copy.jpeg"),
    GalleryItem("salon", "Détail du salon", "Finitions soignées et matériaux nobles",
                "/téléchargement (2) copy.jpeg"),
    GalleryItem("salon", "Espace détente", "Confort et sérénité pour nos clients",
                "/téléchargement (3) copy.jpeg"),
    GalleryItem("salon", "Normandie Coiffure", "Votre salon de référence à Lisieux",
                "/téléchargement (4) copy.jpeg")
  ]

  lemma EightItems()
    ensures |GalleryItems| == 8
    ensures forall i :: 0 <= i < |GalleryItems| ==> GalleryItems[i].kind == "salon"
  {
  }

  /** JavaScript's `%`, which truncates toward zero: the remainder has the
      sign of the dividend. */
  function JsRem(a: int, n: int): (r: int)
    requires n > 0
    ensures a >= 0 ==> 0 <= r < n && r == a % n
    ensures a < 0 ==> -n < r <= 0
  {
    if a >= 0 then a % n else -((-a) % n)
  }

  /** A positive multiple of `n` is at least `n`. */
  lemma {:induction false} MultipleAtLeast(d: int, n: int)
    requires d >= 1 && n > 0
    ensures d * n >= n
    decreases d
  {
    if d > 1 {
      MultipleAtLeast(d - 1, n);
      assert d * n == (d - 1) * n + n;
    }
  }

  /** `x % n` is the `r` of any split `x == q * n + r` with `0 <= r < n`. */
  lemma ModOfSplit(x: int, n: int, q: int, r: int)
    requires n > 0 && 0 <= r < n && x == q * n + r
    ensures x % n == r
  {
    var q', r' := x / n, x % n;
    assert x == q' * n + r';
    var d := q - q';
    assert d * n == r' - r by {
      assert d * n == q * n - q' * n;
    }
    if d > 0 {
      MultipleAtLeast(d, n);
    } else if d < 0 {
      MultipleAtLeast(-d, n);
    }
  }

  /** `nextSlide`: `(prev + 1) % galleryItems.length`. */
  function NextIndex(i: int, n: int): (r: int)
    requires n > 0
    ensures i >= 0 ==> 0 <= r < n
  {
    JsRem(i + 1, n)
  }

  /** `prevSlide`: `(prev - 1 + galleryItems.length) % galleryItems.length`. */
  function PrevIndex(i: int, n: int): (r: int)
    requires n > 0
    ensures i >= 0 ==> 0 <= r < n
  {
    JsRem(i - 1 + n, n)
  }

  /** Both arrows keep an index in range, and wrap at the ends. */
  lemma ArrowsStayInRange(i: int, n: int)
    requires n > 0 && 0 <= i < n
    ensures 0 <= NextIndex(i, n) < n && 0 <= PrevIndex(i, n) < n
    ensures NextIndex(i, n) == if i == n - 1 then 0 else i + 1
    ensures PrevIndex(i, n) == if i == 0 then n - 1 else i - 1
  {
    if i == n - 1 { ModOfSplit(i + 1, n, 1, 0); } else { ModOfSplit(i + 1, n, 0, i + 1); }
    if i == 0 { ModOfSplit(i - 1 + n, n, 0, n - 1); } else { ModOfSplit(i - 1 + n, n, 1, i - 1); }
  }

  /** The two arrows undo each other on every valid index. */
  lemma PrevUndoesNext(i: int, n: int)
    requires n > 0 && 0 <= i < n
    ensures PrevIndex(NextIndex(i, n), n) == i
    ensures NextIndex(PrevIndex(i, n), n) == i
  {
    ArrowsStayInRange(i, n);
    ArrowsStayInRange(NextIndex(i, n), n);
    ArrowsStayInRange(PrevIndex(i, n), n);
  }

  /** `nextSlide` pressed `k` times. */
  function NextTimes(i: int, k: nat, n: int): int
    requires n > 0
    decreases k
  {
    if k == 0 then i else NextIndex(NextTimes(i, k - 1, n), n)
  }

  /** Adding one after reducing is adding one before. */
  lemma ModSucc(a: int, n: int)
    requires a >= 0 && n > 0
    ensures (a % n + 1) % n == (a + 1) % n
  {
    var q, r := a / n, a % n;
    assert a == q * n + r;
    if r == n - 1 {
      ModOfSplit(r + 1, n, 1, 0);
      ModOfSplit(a + 1, n, q + 1, 0);
    } else {
      ModOfSplit(r + 1, n, 0, r + 1);
      ModOfSplit(a + 1, n, q, r + 1);
    }
  }

  /** Pressing `nextSlide` `k` times from `i` advances by `k` modulo the
      length. */
  lemma {:induction false} NextTimesAdvances(i: int, k: nat, n: int)
    requires n > 0 && 0 <= i < n
    ensures NextTimes(i, k, n) == (i + k) % n
    decreases k
  {
    if k == 0 {
      ModOfSplit(i, n, 0, i);
    } else {
      NextTimesAdvances(i, k - 1, n);
      var p := NextTimes(i, k - 1, n);
      assert p == (i + k - 1) % n && p >= 0;
      assert NextTimes(i, k, n) == (p + 1) % n;
      ModSucc(i + k - 1, n);
    }
  }

  /** `n` presses of `nextSlide` come back to the starting slide. */
  lemma FullTurn(i: int, n: int)
    requires n > 0 && 0 <= i < n
    ensures NextTimes(i, n, n) == i
  {
    NextTimesAdvances(i, n, n);
    ModOfSplit(i + n, n, 1, i);
  }

  const DefaultTitle: string := "Galerie & Réalisations"
  const DefaultDescription: string :=
    "Découvrez nos créations et l'ambiance chaleureuse de notre salon. Chaque réalisation raconte une histoire de transformation et d'élégance."

  /** The section's heading: the stored `gallery.title`, or the fixed text. */
  function Title(content: Content): (t: string)
    ensures t != ""
    ensures "gallery" in content && "title" in content["gallery"] && content["gallery"]["title"] != "" ==>
      t == content["gallery"]["title"]
  {
    GetContent(content, "gallery", "title", DefaultTitle)
  }

  function Description(content: Content): (t: string)
    ensures t != ""
    ensures "gallery" in content && "description" in content["gallery"] && content["gallery"]["description"] != "" ==>
      t == content["gallery"]["description"]
  {
    GetContent(content, "gallery", "description", DefaultDescription)
  }

  /** What the user can do: an arrow, or a click on the indicator or the
      thumbnail at `index` (both are rendered by mapping over the items). */
  datatype Action = NextArrow | PrevArrow | Select(index: int)

  function Apply(i: int, a: Action): int
  {
    match a
    case NextArrow => NextIndex(i, |GalleryItems|)
    case PrevArrow => PrevIndex(i, |GalleryItems|)
    case Select(index) => index
  }

  function ApplyAll(i: int, actions: seq<Action>): int
    decreases |actions|
  {
    if actions == [] then i else ApplyAll(Apply(i, actions[0]), actions[1..])
  }

  /** Every index reachable from the initial 0 indexes `galleryItems` in
      bounds, so the main picture and its captions always exist. */
  lemma {:induction false} ReachableInBounds(i: int, actions: seq<Action>)
    requires 0 <= i < |GalleryItems|
    requires forall k :: 0 <= k < |actions| && actions[k].Select? ==>
      0 <= actions[k].index < |GalleryItems|
    ensures 0 <= ApplyAll(i, actions) < |GalleryItems|
    decreases |actions|
  {
    if actions != [] {
      ArrowsStayInRange(i, |GalleryItems|);
      assert actions[0].Select? ==> 0 <= actions[0].index < |GalleryItems|;
      ReachableInBounds(Apply(i, actions[0]), actions[1..]);
    }
  }

  /** The carousel component's state. */
  class Slides {
    var currentSlide: int

    ghost predicate Valid()
      reads this
    {
      0 <= currentSlide < |GalleryItems|
    }

    constructor ()
      ensures currentSlide == 0 && Valid()
    {
      currentSlide := 0;
    }

    method NextSlide()
      requires Valid()
      modifies this
      ensures Valid() && currentSlide == NextIndex(old(currentSlide), |GalleryItems|)
    {
      ArrowsStayInRange(currentSlide, |GalleryItems|);
      currentSlide := (currentSlide + 1) % |GalleryItems|;
    }

    method PrevSlide()
      requires Valid()
      modifies this
      ensures Valid() && currentSlide == PrevIndex(old(currentSlide), |GalleryItems|)
    {
      ArrowsStayInRange(currentSlide, |GalleryItems|);
      currentSlide := (currentSlide - 1 + |GalleryItems|) % |GalleryItems|;
    }

    /** The indicator or thumbnail at `index` was clicked. */
    method SelectSlide(index: int)
      requires 0 <= index < |GalleryItems|
      modifies this
      ensures Valid() && currentSlide == index
    {
      currentSlide := index;
    }

    /** The picture, title and description shown in the main frame. */
    function Shown(): (item: GalleryItem)
      requires Valid()
      reads this
      ensures item in GalleryItems
    {
      GalleryItems[currentSlide]
    }
  }
}
