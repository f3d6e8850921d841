/**
 * The static outfit table and its lookup (app.js sections 12 and 16): the first
 * record matching (mood, weather), and the rendering view that a Male choice
 * derives from it.
 */
module Recommendations {
  import opened Options
  import opened Mood
  import opened Weather

  datatype Gender = Male | Female

  /**
   * One entry of `RECOMMENDATIONS`. The `_male` palette, items and accessories
   * are carried but never applied by the lookup; `description_male` is
   * optional and absent from every shipped entry.
   */
  datatype Record = Record(
    id: string,
    title: string,
    mood: Style,
    weather: Weather,
    hero: string,
    paletteText: string,
    paletteTextMale: string,
    items: seq<string>,
    itemsMale: seq<string>,
    accessories: seq<string>,
    accessoriesMale: seq<string>,
    description: string,
    descriptionMale: Option<string>)

  /** `RECOMMENDATIONS`, in the order of the source. */
  function Table(): (t: seq<Record>)
    ensures |t| == 12
  {
    [ ActiveSunny(), ActiveCloudy(), ActiveRainy(),
      MinimalSunny(), MinimalCloudy(), MinimalRainy(),
      CozySunny(), CozyCloudy(), CozyRainy(),
      StreetSunny(), StreetCloudy(), StreetRainy() ]
  }

  function ActiveSunny(): (r: Record)
    ensures Matches(r, Active, Sunny) && r.descriptionMale.None?
  {
    Record("active_sunny", "Active × Sunny", Active, Sunny, "assets_img/active_sunny.jpg",
      "Red / Orange / Yellow", "Red / Black / Brown",
      ["Cotton T-shirt", "Mini skirt", "Sneakers"], ["Hoodie", "Bermuda shorts", "Work boots"],
      ["Sunglasses", "Cap", "Beaded bracelet"], ["Bandana", "Belt", "Smartphone"],
      "Bright energy for sunny weather.", None)
  }

  function ActiveCloudy(): (r: Record)
    ensures Matches(r, Active, Cloudy) && r.descriptionMale.None?
  {
    Record("active_cloudy", "Active × Cloudy", Active, Cloudy, "assets_img/active_cloudy.jpg",
      "Red / Orange / Yellow (toned down)", "Yellow / Navy / Denim Blue",
      ["T-shirt + cardigan", "Light pants"], ["Hoodie", "Denim jacket", "Wide denim pants"],
      ["Bucket hat", "Crossbody bag"], ["Glasses", "Wrist watch", "Sneakers"],
      "Stay light and energetic on cloudy days.", None)
  }

  function ActiveRainy(): (r: Record)
    ensures Matches(r, Active, Rainy) && r.descriptionMale.None?
  {
    Record("active_rainy", "Active × Rainy", Active, Rainy, "assets_img/active_rainy.jpg",
      "Bright inner + rain outer", "Red / Light Blue / Yellow",
      ["Rain jacket", "Long pants"], ["Hooded jacket", "Denim pants", "Sneakers"],
      ["Umbrella", "Backpack"], ["Umbrella", "Cross bag", "Stud belt"],
      "Energy inside, protection outside.", None)
  }

  function MinimalSunny(): (r: Record)
    ensures Matches(r, Minimal, Sunny) && r.descriptionMale.None?
  {
    Record("minimal_sunny", "Minimal × Sunny", Minimal, Sunny, "assets_img/minimal_sunny.jpg",
      "Beige / Light Blue / White", "Black / Dark Gray / Silver",
      ["Light blue shirt", "White pants"], ["Leather jacket", "Turtleneck top", "Slacks"],
      ["Leather tote", "Metal watch"], ["Tote bag", "Sunglasses", "Wrist watch"],
      "Clean bright minimal look.", None)
  }

  function MinimalCloudy(): (r: Record)
    ensures Matches(r, Minimal, Cloudy) && r.descriptionMale.None?
  {
    Record("minimal_cloudy", "Minimal × Cloudy", Minimal, Cloudy, "assets_img/minimal_cloudy.jpg",
      "Soft beige & blue", "Black / Gray / Light Blue",
      ["Shirt + cardigan", "Chinos"], ["Long coat", "Hoodie", "Straight jeans"],
      ["Slim belt", "Minimal sneakers"], ["Cap", "Cross bag", "Sneakers"],
      "Balanced tones for cloudy day stability.", None)
  }

  function MinimalRainy(): (r: Record)
    ensures Matches(r, Minimal, Rainy) && r.descriptionMale.None?
  {
    Record("minimal_rainy", "Minimal × Rainy", Minimal, Rainy, "assets_img/minimal_rainy.jpg",
      "Rain-friendly neutrals", "Black / Dark Gray / Brown",
      ["Beige trench", "Shirt", "Slacks"], ["Knit top", "Slacks", "Sneakers"],
      ["Tote bag", "Watch"], ["Umbrella", "Leather shoulder bag", "Minimal shoes"],
      "Keep it clean even in the rain.", None)
  }

  function CozySunny(): (r: Record)
    ensures Matches(r, Cozy, Sunny) && r.descriptionMale.None?
  {
    Record("cozy_sunny", "Cozy × Sunny", Cozy, Sunny, "assets_img/cozy_sunny.jpg",
      "Navy / Black / Gray", "Blue / White / Light Gray",
      ["Light knit", "Relaxed pants"], ["Check shirt", "White T-shirt", "Denim pants"],
      ["Soft scarf", "Canvas bag"], ["Headphones", "Sneakers", "Minimal bracelet"],
      "Relaxed cozy vibe with light knit.", None)
  }

  function CozyCloudy(): (r: Record)
    ensures Matches(r, Cozy, Cloudy) && r.descriptionMale.None?
  {
    Record("cozy_cloudy", "Cozy × Cloudy", Cozy, Cloudy, "assets_img/cozy_cloudy.jpg",
      "Warm knit tones", "Navy / Gray / Black",
      ["Knit sweater", "Coat"], ["Wool coat", "Hoodie", "Slacks"],
      ["Scarf", "Warm bag"], ["Knit beanie", "Loafers", "Winter cap"],
      "Comfort-focused winter-like cozy look.", None)
  }

  function CozyRainy(): (r: Record)
    ensures Matches(r, Cozy, Rainy) && r.descriptionMale.None?
  {
    Record("cozy_rainy", "Cozy × Rainy", Cozy, Rainy, "assets_img/cozy_rainy.jpg",
      "Dark cozy palette", "Navy / Black / Brown",
      ["Hood coat", "Dark jeans"], ["Windbreaker jacket", "Slacks", "Loafers"],
      ["Boots", "Umbrella"], ["Umbrella", "Leather belt", "Dress shoes"],
      "Warm + waterproof = perfect cozy rain outfit.", None)
  }

  function StreetSunny(): (r: Record)
    ensures Matches(r, Street, Sunny) && r.descriptionMale.None?
  {
    Record("street_sunny", "Street × Sunny", Street, Sunny, "assets_img/street_sunny.jpg",
      "Purple / Brown / Green", "Olive / Brown / Black",
      ["Graphic tee", "Cargo shorts"], ["Long-sleeve T-shirt", "Cargo pants", "Loafers"],
      ["Cap", "Chain"], ["Backpack", "Chain necklace", "Headphones"],
      "Cool tones for a sunny street style.", None)
  }

  function StreetCloudy(): (r: Record)
    ensures Matches(r, Street, Cloudy) && r.descriptionMale.None?
  {
    Record("street_cloudy", "Street × Cloudy", Street, Cloudy, "assets_img/street_cloudy.jpg",
      "Muted street tone", "Khaki / Brown / Dark Green",
      ["Oversized hoodie", "Wide pants"], ["Leather jacket", "Cargo pants", "Work boots"],
      ["Chunky sneakers", "Bag"], ["Cross bag", "Baseball cap", "Glasses"],
      "Large fit to stand out in gray weather.", None)
  }

  function StreetRainy(): (r: Record)
    ensures Matches(r, Street, Rainy) && r.descriptionMale.None?
  {
    Record("street_rainy", "Street × Rainy", Street, Rainy, "assets_img/street_rainy.jpg",
      "Techwear mix", "Olive / Gray / Black",
      ["Rain jacket", "Cargo pants"], ["Waterproof parka", "Wide pants", "Sneakers"],
      ["Bucket hat", "Grip sneakers"], ["Umbrella", "Cross bag", "Baseball cap"],
      "Tech-inspired street rain outfit.", None)
  }

  predicate Matches(r: Record, style: Style, weather: Weather)
  {
    r.mood == style && r.weather == weather
  }

  /** `RECOMMENDATIONS.find(...)`: the first record whose mood and weather both match, if any. */
  function Find(table: seq<Record>, style: Style, weather: Weather): (r: Option<Record>)
    ensures r.Some? ==> exists i :: 0 <= i < |table| && table[i] == r.value && Matches(table[i], style, weather) &&
                          forall j :: 0 <= j < i ==> !Matches(table[j], style, weather)
    ensures r.None? <==> forall i :: 0 <= i < |table| ==> !Matches(table[i], style, weather)
  {
    if table == [] then None
    else if Matches(table[0], style, weather) then Some(table[0])
    else
      var r := Find(table[1..], style, weather);
      assert r.Some? ==> exists i :: 0 <= i < |table| && table[i] == r.value && Matches(table[i], style, weather) &&
                          forall j :: 0 <= j < i ==> !Matches(table[j], style, weather) by {
        if r.Some? {
          var i :| 0 <= i < |table[1..]| && table[1..][i] == r.value && Matches(table[1..][i], style, weather) &&
                   forall j :: 0 <= j < i ==> !Matches(table[1..][j], style, weather);
          assert forall j :: 0 <= j < i + 1 ==> !Matches(table[j], style, weather) by {
            forall j | 0 <= j < i + 1 ensures !Matches(table[j], style, weather) {
              if j > 0 { assert table[j] == table[1..][j - 1]; }
            }
          }
          assert table[i + 1] == r.value;
        }
      }
      assert r.None? ==> forall i :: 0 <= i < |table| ==> !Matches(table[i], style, weather) by {
        if r.None? {
          forall i | 0 <= i < |table| ensures !Matches(table[i], style, weather) {
            if i > 0 { assert table[i] == table[1..][i - 1]; }
          }
        }
      }
      r
  }

  /** The lookup returns the record at the first matching index. */
  lemma FindFirst(table: seq<Record>, style: Style, weather: Weather, i: nat)
    requires i < |table| && Matches(table[i], style, weather)
    requires forall j :: 0 <= j < i ==> !Matches(table[j], style, weather)
    ensures Find(table, style, weather) == Some(table[i])
  {
  }

  /** Where `RECOMMENDATIONS` keeps the (style, weather) record: mood after mood, each Sunny, Cloudy, Rainy. */
  function Cell(style: Style, weather: Weather): (k: nat)
    ensures k < 12
    ensures StyleAt(k) == style && WeatherAt(k) == weather
  {
    (match style case Active => 0 case Minimal => 3 case Cozy => 6 case Street => 9) +
    (match weather case Sunny => 0 case Cloudy => 1 case Rainy => 2)
  }

  function StyleAt(k: nat): Style
  {
    if k < 3 then Active else if k < 6 then Minimal else if k < 9 then Cozy else Street
  }

  function WeatherAt(k: nat): Weather
  {
    if k % 3 == 0 then Sunny else if k % 3 == 1 then Cloudy else Rainy
  }

  /** Every position of the table is the cell of its own pair. */
  lemma CellInverse(k: nat)
    requires k < 12
    ensures Cell(StyleAt(k), WeatherAt(k)) == k
  {
  }

  /** A table laid out as `RECOMMENDATIONS` is: twelve records, the one at `k` for its cell's pair. */
  ghost predicate Laid(c: seq<Record>)
  {
    |c| == 12 && forall k :: 0 <= k < 12 ==> Matches(c[k], StyleAt(k), WeatherAt(k))
  }

  lemma TableLaid()
    ensures Laid(Table())
  {
    LaidOf(ActiveSunny(), ActiveCloudy(), ActiveRainy(), MinimalSunny(), MinimalCloudy(), MinimalRainy(),
           CozySunny(), CozyCloudy(), CozyRainy(), StreetSunny(), StreetCloudy(), StreetRainy());
  }

  /** Twelve records keyed in table order make a table so laid out. */
  lemma LaidOf(r0: Record, r1: Record, r2: Record, r3: Record, r4: Record, r5: Record,
               r6: Record, r7: Record, r8: Record, r9: Record, r10: Record, r11: Record)
    requires Matches(r0, Active, Sunny) && Matches(r1, Active, Cloudy) && Matches(r2, Active, Rainy)
    requires Matches(r3, Minimal, Sunny) && Matches(r4, Minimal, Cloudy) && Matches(r5, Minimal, Rainy)
    requires Matches(r6, Cozy, Sunny) && Matches(r7, Cozy, Cloudy) && Matches(r8, Cozy, Rainy)
    requires Matches(r9, Street, Sunny) && Matches(r10, Street, Cloudy) && Matches(r11, Street, Rainy)
    ensures Laid([r0, r1, r2, r3, r4, r5, r6, r7, r8, r9, r10, r11])
  {
  }

  /** In such a table every pair is found, at its cell. */
  lemma {:induction false} LaidFind(c: seq<Record>, style: Style, weather: Weather)
    requires Laid(c)
    ensures Find(c, style, weather) == Some(c[Cell(style, weather)])
  {
    var i := Cell(style, weather);
    forall j | 0 <= j < i
      ensures !Matches(c[j], style, weather)
    {
      CellInverse(j);
    }
    FindFirst(c, style, weather, i);
  }

  /** In such a table no two records share a pair. */
  lemma {:induction false} LaidUnique(c: seq<Record>)
    requires Laid(c)
    ensures forall i, j :: 0 <= i < j < |c| ==> c[i].mood != c[j].mood || c[i].weather != c[j].weather
  {
    forall i, j | 0 <= i < j < |c|
      ensures c[i].mood != c[j].mood || c[i].weather != c[j].weather
    {
      CellInverse(i);
      CellInverse(j);
    }
  }

  /** The table holds exactly one record for each of the twelve (mood, weather) pairs. */
  lemma TableUnique()
    ensures |Table()| == 12
    ensures forall i, j :: 0 <= i < j < |Table()| ==>
      Table()[i].mood != Table()[j].mood || Table()[i].weather != Table()[j].weather
  {
    TableLaid();
    LaidUnique(Table());
  }

  /** The lookup returns the record of the pair's cell. */
  lemma TableRow(style: Style, weather: Weather)
    ensures Find(Table(), style, weather) == Some(Table()[Cell(style, weather)])
  {
    TableLaid();
    LaidFind(Table(), style, weather);
  }

  /** So the lookup always finds the one record of its pair. */
  lemma TableComplete(style: Style, weather: Weather)
    ensures Find(Table(), style, weather).Some?
    ensures Find(Table(), style, weather).value.mood == style
    ensures Find(Table(), style, weather).value.weather == weather
  {
    TableLaid();
    LaidFind(Table(), style, weather);
  }

  /** No shipped record has a `description_male`, so the description override never applies to the table. */
  lemma TableHasNoMaleDescription()
    ensures forall i :: 0 <= i < |Table()| ==> Table()[i].descriptionMale.None?
  {
  }

  /** `hero.lastIndexOf(".")`: the index of the last dot, or -1 when there is none. */
  function LastDot(s: string): (k: int)
    ensures -1 <= k < |s|
    ensures k >= 0 ==> s[k] == '.'
    ensures forall j :: k < j < |s| ==> s[j] != '.'
  {
    if s == [] then -1
    else if s[|s| - 1] == '.' then |s| - 1
    else LastDot(s[..|s| - 1])
  }

  /** Inserts "1" immediately before the last dot; a name with no dot is left as it is. */
  function MaleHero(hero: string): (r: string)
    ensures !('.' in hero) ==> r == hero
    ensures '.' in hero ==>
      |r| == |hero| + 1 &&
      exists d :: 0 <= d < |hero| && hero[d] == '.' && (forall j :: d < j < |hero| ==> hero[j] != '.') &&
                  r == hero[..d] + "1" + hero[d..]
  {
    var d := LastDot(hero);
    if d > -1 then hero[..d] + "1" + hero[d..] else hero
  }

  /**
   * The rendering view `cardForRender` of `showFinalCard`: a copy of `base` in
   * which, for Male and a non-empty hero, the hero gets the "1" suffix and a
   * non-empty `description_male` replaces the description.
   */
  function View(base: Record, gender: Gender): (v: Record)
    ensures gender == Female ==> v == base
    ensures gender == Male ==> v.hero == MaleHero(base.hero)
    ensures v.description ==
      if gender == Male && base.hero != "" && base.descriptionMale.Some? && base.descriptionMale.value != ""
      then base.descriptionMale.value else base.description
    ensures v.(hero := base.hero, description := base.description) == base
  {
    if gender == Male && base.hero != "" then
      var described :=
        if base.descriptionMale.Some? && base.descriptionMale.value != ""
        then base.(description := base.descriptionMale.value) else base;
      described.(hero := MaleHero(base.hero))
    else
      base
  }

  /** Rendering for Male never changes the hero when it has no dot, even an empty one. */
  lemma ViewHeroWithoutDot(base: Record, gender: Gender)
    requires !('.' in base.hero)
    ensures View(base, gender).hero == base.hero
  {
  }

  /** A `.jpg` hero whose stem has no dot gets the "1" just before the extension. */
  lemma MaleHeroOfJpg(stem: string)
    requires !('.' in stem)
    ensures MaleHero(stem + ".jpg") == stem + "1.jpg"
  {
    var h := stem + ".jpg";
    var d := LastDot(h);
    assert h[|stem|] == '.';
    assert d == |stem| by {
      assert forall j :: |stem| < j < |h| ==> h[j] != '.';
    }
    assert h[..d] == stem && h[d..] == ".jpg";
  }

  /** The whole resolution in a table: lookup, then the view for the chosen gender. */
  function Resolve(table: seq<Record>, style: Style, weather: Weather, gender: Gender): (r: Option<Record>)
    ensures r.None? <==> Find(table, style, weather).None?
    ensures r.Some? ==> r.value == View(Find(table, style, weather).value, gender)
    ensures r.Some? ==> r.value.mood == style && r.value.weather == weather
  {
    match Find(table, style, weather)
    case None => None
    case Some(base) => Some(View(base, gender))
  }

  /**
   * Female gets the stored record; in a table without `description_male`
   * overrides, such as `Table()`, Male gets it with at most the hero changed.
   */
  lemma ResolveByGender(table: seq<Record>, style: Style, weather: Weather)
    requires forall i :: 0 <= i < |table| ==> table[i].descriptionMale.None?
    ensures Resolve(table, style, weather, Female) == Find(table, style, weather)
    ensures Resolve(table, style, weather, Male).None? <==> Find(table, style, weather).None?
    ensures Resolve(table, style, weather, Male).Some? ==>
      Resolve(table, style, weather, Male).value.(hero := Find(table, style, weather).value.hero) ==
      Find(table, style, weather).value
  {
    var found := Find(table, style, weather);
    if found.Some? {
      var i :| 0 <= i < |table| && table[i] == found.value && Matches(table[i], style, weather) &&
               forall j :: 0 <= j < i ==> !Matches(table[j], style, weather);
      assert found.value.descriptionMale.None?;
    }
  }

  /** Happy in the sun for a woman: the `active_sunny` record exactly as stored. */
  lemma ActiveSunnyFemale()
    ensures Resolve(Table(), Active, Sunny, Female) == Some(Table()[0])
    ensures Resolve(Table(), Active, Sunny, Female).value.hero == "assets_img/active_sunny.jpg"
  {
    FindFirst(Table(), Active, Sunny, 0);
  }

  /** The same for a man: `active_sunny.jpg` becomes `active_sunny1.jpg`, the rest as stored. */
  lemma ActiveSunnyMale()
    ensures Resolve(Table(), Active, Sunny, Male) == Some(Table()[0].(hero := "assets_img/active_sunny1.jpg"))
  {
    FindFirst(Table(), Active, Sunny, 0);
    ActiveSunnyHero();
  }

  lemma ActiveSunnyHero()
    ensures MaleHero("assets_img/active_sunny.jpg") == "assets_img/active_sunny1.jpg"
  {
    MaleHeroOfJpg("assets_img/active_sunny");
    assert "assets_img/active_sunny" + ".jpg" == "assets_img/active_sunny.jpg";
    assert "assets_img/active_sunny" + "1.jpg" == "assets_img/active_sunny1.jpg";
  }
}
