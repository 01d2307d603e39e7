/**
 * Display helpers the task and profile views share: the five-star rating, the
 * category icon lookup, the status and action labels, the avatar, the
 * "about me" fallback and the social-link list.
 */
module Display {
  import opened Js
  import Text

  /** Number of stars the rating widget always draws. */
  const StarCount := 5

  /**
   * `renderRating(rating)`: a loop over i = 1..5 pushing one star per step,
   * lit (yellow) when `i <= rating`, grey otherwise. `stars[k]` is star k+1.
   */
  method RenderRating(rating: int) returns (stars: seq<bool>)
    ensures |stars| == StarCount
    ensures forall k :: 0 <= k < |stars| ==> (stars[k] <==> k + 1 <= rating)
    ensures stars == Stars(rating)
  {
    stars := [];
    for i := 1 to StarCount + 1
      invariant |stars| == i - 1
      invariant forall k :: 0 <= k < |stars| ==> (stars[k] <==> k + 1 <= rating)
    {
      stars := stars + [i <= rating];
    }
  }

  /** The stars the widget draws for an integer rating, as the views show them. */
  function Stars(rating: int): (stars: seq<bool>)
    ensures |stars| == StarCount
  {
    seq(StarCount, k => k + 1 <= rating)
  }

  /**
   * The stars for a rating field: known for a number; None where `i <= rating`
   * would coerce some other value.
   */
  function RatingStars(rating: Json): (stars: Option<seq<bool>>)
    ensures stars.Some? <==> rating.Num?
    ensures stars.Some? ==> stars.value == Stars(rating.n)
    ensures stars.Some? ==>
      && |stars.value| == StarCount
      && (forall k :: 0 <= k < StarCount ==> (stars.value[k] <==> k < rating.n))
    ensures stars.Some? ==> LitCount(stars.value) == if rating.n < 0 then 0 else if rating.n > StarCount then StarCount else rating.n
  {
    if rating.Num? then
      RatingLitCount(Stars(rating.n), rating.n);
      Some(Stars(rating.n))
    else None
  }

  /** How many of the stars are lit. */
  function LitCount(stars: seq<bool>): (n: nat)
    ensures n <= |stars|
  {
    if stars == [] then 0 else (if stars[0] then 1 else 0) + LitCount(stars[1..])
  }

  /** The lit stars are exactly the first ones: star k is lit iff k < n gives n lit stars. */
  lemma {:induction false} LitPrefixCount(stars: seq<bool>, n: nat)
    requires n <= |stars|
    requires forall k :: 0 <= k < |stars| ==> (stars[k] <==> k < n)
    ensures LitCount(stars) == n
  {
    if stars != [] {
      LitPrefixCount(stars[1..], if n == 0 then 0 else n - 1);
    }
  }

  /** For an integer rating the widget lights min(5, max(0, rating)) stars, the lit ones first. */
  lemma RatingLitCount(stars: seq<bool>, rating: int)
    requires |stars| == StarCount
    requires forall k :: 0 <= k < |stars| ==> (stars[k] <==> k + 1 <= rating)
    ensures LitCount(stars) == if rating < 0 then 0 else if rating > StarCount then StarCount else rating
  {
    var n := if rating < 0 then 0 else if rating > StarCount then StarCount else rating;
    LitPrefixCount(stars, n);
  }

  /** The icons of the `categoryIcons` table. */
  datatype Icon = DesignIcon | WebIcon | TextIcon | DefaultIcon

  /**
   * The icon table looked up by category, falling back to the default icon. An
   * object key is the string form of the value, so `["web"]` finds the web icon.
   */
  function CategoryIcon(category: Json): (icon: Icon)
    ensures icon == DesignIcon <==> ToJsString(category) == "design"
    ensures icon == WebIcon <==> ToJsString(category) == "web"
    ensures icon == TextIcon <==> ToJsString(category) == "text"
    ensures category.Str? ==> (icon == DefaultIcon <==> category.s !in {"design", "web", "text"})
  {
    var key := ToJsString(category);
    if key == "design" then DesignIcon
    else if key == "web" then WebIcon
    else if key == "text" then TextIcon
    else DefaultIcon
  }

  /** A one-element array picks the icon of its element's name, as the lookup converts the key to a string. */
  lemma ArrayCategoryIcon(name: string)
    ensures CategoryIcon(Arr([Str(name)])) == CategoryIcon(Str(name))
  {
    assert JoinElements([Str(name)]) == JoinElement(Str(name)) == name;
  }

  /** Status badge: `is_completed ? 'Completed' : 'Active'`. */
  function StatusLabel(isCompleted: Json): (caption: string)
    ensures caption == "Completed" <==> Truthy(isCompleted)
    ensures caption == "Active" <==> !Truthy(isCompleted)
  {
    if Truthy(isCompleted) then "Completed" else "Active"
  }

  /** Action button of the task page, chosen by the truthiness of `is_completed`. */
  function ActionLabel(isCompleted: Json): (caption: string)
    ensures caption == "Task Completed" <==> Truthy(isCompleted)
    ensures caption == "Accept Task" <==> !Truthy(isCompleted)
  {
    if Truthy(isCompleted) then "Task Completed" else "Accept Task"
  }

  /** Both labels of a task follow the same flag, so a task is never shown half completed. */
  lemma LabelsAgree(isCompleted: Json)
    ensures StatusLabel(isCompleted) == "Completed" <==> ActionLabel(isCompleted) == "Task Completed"
  {
  }

  /** The avatar circle: the picture at `image`, or the first character of the name. */
  datatype Avatar = Picture(src: Json) | Initial(letter: string)

  /** `image ? <img src={image}/> : name.charAt(0)`. */
  function AvatarFor(image: Json, name: string): (a: Avatar)
    ensures a.Picture? <==> Truthy(image)
    ensures a.Picture? ==> a.src == image
    ensures a.Initial? ==> |a.letter| <= 1 && (name != "" ==> a.letter == [name[0]])
    ensures a.Initial? ==> a.letter == (if name == "" then "" else name[..1])
  {
    if Truthy(image) then Picture(image) else Initial(if name == "" then "" else name[..1])
  }

  /**
   * The avatar expression can be evaluated without throwing: either the image
   * is truthy, or the name is a string (only a string has `charAt`).
   */
  predicate AvatarReadable(image: Json, name: Json) {
    Truthy(image) || name.Str?
  }

  /**
   * The `creator` fields of a task can be read without throwing: neither the
   * task nor its `creator` is null or undefined.
   */
  predicate CreatorReadable(task: Json) {
    Member(task, "creator").Ok? && !Member(task, "creator").value.Nullish()
  }

  /** `about_me || 'No information provided'`. */
  function AboutMe(aboutMe: Json): (shown: Json)
    ensures Truthy(shown)
    ensures Truthy(aboutMe) ==> shown == aboutMe
    ensures !Truthy(aboutMe) ==> shown == Str("No information provided")
  {
    Or(aboutMe, Str("No information provided"))
  }

  /** One external link of the profile: its `href` and its visible text. */
  datatype SocialLink = SocialLink(href: string, text: string)

  /** The link for one comma-separated piece: its trimmed text, as target and as label. */
  function LinkOf(piece: string): SocialLink
  {
    var trimmed := Text.Trim(piece);
    SocialLink(trimmed, trimmed)
  }

  /**
   * The social-links section of the profile: no section for a falsy value,
   * else one link per comma-separated piece, whose target and text are the trimmed piece.
   */
  function SocialLinks(socials: Json): (r: Option<seq<SocialLink>>)
    requires !Truthy(socials) || socials.Str?
    ensures r.Some? <==> Truthy(socials)
    ensures r.Some? ==> |r.value| == |Text.Split(socials.s, ',')| == Text.Count(socials.s, ',') + 1
    ensures r.Some? ==> forall k :: 0 <= k < |r.value| ==>
      r.value[k].href == r.value[k].text == Text.Trim(Text.Split(socials.s, ',')[k])
  {
    if Truthy(socials) then
      Text.SplitCount(socials.s, ',');
      var pieces := Text.Split(socials.s, ',');
      Some(seq(|pieces|, k requires 0 <= k < |pieces| => LinkOf(pieces[k])))
    else None
  }
}
