/** The species registry (src/resources/species.rs): the set of species ids, the set of colours in use
    and the colour of each species. Colours are drawn at random, each channel from 0..254, until one not
    yet in use comes up; a draw of a colour already in use changes nothing, so the model picks a fresh
    colour directly. */
module SpeciesRegistry {

  /** An 8-bit RGB colour. */
  datatype Rgb = Rgb(r: nat, g: nat, b: nat)

  /** The colour shown for an unknown species. */
  const WHITE: Rgb := Rgb(255, 255, 255)

  /** Number of colours a draw can produce: the upper bound `u8::MAX` of each channel is exclusive. */
  const N_COLORS: nat := 255 * 255 * 255

  /** A colour the random draw can produce. */
  predicate Drawable(c: Rgb) {
    c.r < 255 && c.g < 255 && c.b < 255
  }

  // ---- the colour space is finite but large enough ----

  /** The k-th drawable colour. */
  function ColorAt(k: nat): (c: Rgb)
    requires k < N_COLORS
    ensures Drawable(c)
  {
    Rgb(k / 65025, (k / 255) % 255, k % 255)
  }

  lemma ColorAtInjective(a: nat, b: nat)
    requires a < N_COLORS && b < N_COLORS && ColorAt(a) == ColorAt(b)
    ensures a == b
  {
    assert a == (a / 65025) * 65025 + ((a / 255) % 255) * 255 + a % 255;
    assert b == (b / 65025) * 65025 + ((b / 255) % 255) * 255 + b % 255;
  }

  /** A set holding the first `m` drawable colours has at least `m` elements. */
  lemma {:induction false} HoldsFirstColors(s: set<Rgb>, m: nat)
    requires m <= N_COLORS
    requires forall k :: 0 <= k < m ==> ColorAt(k) in s
    ensures |s| >= m
  {
    if m > 0 {
      var last := ColorAt(m - 1);
      forall k | 0 <= k < m - 1
        ensures ColorAt(k) in s - {last}
      {
        if ColorAt(k) == last {
          ColorAtInjective(k, m - 1);
        }
      }
      HoldsFirstColors(s - {last}, m - 1);
    }
  }

  /** While fewer than all colours are in use, the retry loop can still find a fresh one. */
  lemma FreshColorExists(used: set<Rgb>)
    requires |used| < N_COLORS
    ensures exists c :: Drawable(c) && c !in used
  {
    if forall k :: 0 <= k < N_COLORS ==> ColorAt(k) in used {
      HoldsFirstColors(used, N_COLORS);
    } else {
      var k :| 0 <= k < N_COLORS && ColorAt(k) !in used;
      assert Drawable(ColorAt(k));
    }
  }

  /** Adding a fresh key adds its value to the values of a map. */
  lemma AddKeyValues(m: map<nat, Rgb>, k: nat, v: Rgb)
    requires k !in m
    ensures m[k := v].Values == m.Values + {v}
  {
    var n := m[k := v];
    forall x | x in m.Values
      ensures x in n.Values
    {
      var j :| j in m && m[j] == x;
      assert n[j] == x;
    }
    assert n[k] == v;
  }

  /** No colour is shared by two ids. */
  predicate Injective(m: map<nat, Rgb>) {
    forall a, b :: a in m && b in m && a != b ==> m[a] != m[b]
  }

  /** The registry invariant: one drawable colour per registered id, no colour shared by two ids,
      and no colour in use without an owner. */
  ghost predicate Registered(species: set<nat>, colors: set<Rgb>, colorMap: map<nat, Rgb>) {
    && colorMap.Keys == species
    && colorMap.Values == colors
    && |colors| == |species|
    && (forall c :: c in colors ==> Drawable(c))
    && Injective(colorMap)
  }

  lemma AddKeyInjective(m: map<nat, Rgb>, id: nat, c: Rgb)
    requires Injective(m) && id !in m && c !in m.Values
    ensures Injective(m[id := c])
  {
    var n := m[id := c];
    forall a, b | a in n && b in n && a != b
      ensures n[a] != n[b]
    {
      if a != id && b != id {
        assert n[a] == m[a] && n[b] == m[b];
      } else if a == id {
        assert m[b] in m.Values;
      } else {
        assert m[a] in m.Values;
      }
    }
  }

  lemma AddKeyCount(species: set<nat>, colors: set<Rgb>, id: nat, c: Rgb)
    requires |colors| == |species| && id !in species && c !in colors
    ensures |colors + {c}| == |species + {id}|
  {
  }

  lemma AddDrawable(colors: set<Rgb>, c: Rgb)
    requires (forall x :: x in colors ==> Drawable(x)) && Drawable(c)
    ensures forall x :: x in colors + {c} ==> Drawable(x)
  {
  }

  /** Registering a new id with a fresh drawable colour keeps the invariant. */
  lemma RegisterKeeps(species: set<nat>, colors: set<Rgb>, colorMap: map<nat, Rgb>, id: nat, c: Rgb)
    requires Registered(species, colors, colorMap)
    requires id !in species && Drawable(c) && c !in colors
    ensures Registered(species + {id}, colors + {c}, colorMap[id := c])
  {
    AddKeyValues(colorMap, id, c);
    AddKeyInjective(colorMap, id, c);
    AddKeyCount(species, colors, id, c);
    AddDrawable(colors, c);
  }

  /** One draw of the retry loop that comes up with a colour not yet in use. */
  method DrawFresh(used: set<Rgb>) returns (c: Rgb)
    requires |used| < N_COLORS
    ensures Drawable(c) && c !in used
  {
    FreshColorExists(used);
    c :| Drawable(c) && c !in used;
  }

  /** The drawing loop of the constructor: `n` distinct drawable colours. */
  method DrawColors(n: nat) returns (drawn: set<Rgb>)
    requires n <= N_COLORS
    ensures |drawn| == n && forall c :: c in drawn ==> Drawable(c)
  {
    drawn := {};
    while |drawn| < n
      invariant |drawn| <= n
      invariant forall c :: c in drawn ==> Drawable(c)
      decreases n - |drawn|
    {
      var c := DrawFresh(drawn);
      drawn := drawn + {c};
    }
  }

  /** A subset as large as its superset is the whole set. */
  lemma SubsetSameSize<T>(a: set<T>, b: set<T>)
    requires a <= b && |a| == |b|
    ensures a == b
  {
    assert b == a + (b - a) && a * (b - a) == {};
    assert |b - a| == 0;
  }

  /** Some element of a set not in its proper subset. */
  method Other<T>(a: set<T>, b: set<T>) returns (x: T)
    requires a <= b && a != b
    ensures x in b && x !in a
  {
    assert !(b <= a);
    x :| x in b && x !in a;
  }

  /** The zip of the constructor: pairs each id with a colour, in the iteration order of the two
      sets, which the model leaves open. */
  method Pair(ids: set<nat>, drawn: set<Rgb>) returns (m: map<nat, Rgb>)
    requires |ids| == |drawn| && forall c :: c in drawn ==> Drawable(c)
    ensures Registered(ids, drawn, m)
  {
    m := map[];
    var doneIds: set<nat>, doneColors: set<Rgb> := {}, {};
    while doneIds != ids
      invariant doneIds <= ids && doneColors <= drawn
      invariant Registered(doneIds, doneColors, m)
      decreases |ids - doneIds|
    {
      var s := Other(doneIds, ids);
      if doneColors == drawn {
        SubsetSameSize(doneIds, ids);
        assert false;
      }
      var c := Other(doneColors, drawn);
      RegisterKeeps(doneIds, doneColors, m, s, c);
      m := m[s := c];
      doneIds, doneColors := doneIds + {s}, doneColors + {c};
    }
    SubsetSameSize(doneColors, drawn);
  }

  // ---- the registry ----

  class Species {
    var species: set<nat>
    var colors: set<Rgb>
    var colorMap: map<nat, Rgb>

    ghost predicate Valid()
      reads this
    {
      Registered(species, colors, colorMap)
    }

    /** Registers the given ids, each with a distinct random colour. There must be no more ids than
        colours, or the drawing loop of the source never ends. */
    constructor (ids: set<nat>)
      requires |ids| <= N_COLORS
      ensures Valid() && species == ids
    {
      var drawn := DrawColors(|ids|);
      var m := Pair(ids, drawn);
      species, colors, colorMap := ids, drawn, m;
    }

  /** The next unused species id: the number of ids registered so far. */
    function NextSpecies(): (n: nat)
      reads this
      ensures Valid() ==> n == |colorMap.Keys| && n == |colors|
    {
      |species|
    }

    /** Registers `id` with a colour not yet in use; an id already registered changes nothing. The
        colours must not be exhausted, or the retry loop of the source never ends. */
    method AddSpecies(id: nat)
      requires Valid()
      requires id !in species ==> |species| < N_COLORS
      modifies this
      ensures Valid()
      ensures id in old(species) ==> species == old(species) && colors == old(colors) && colorMap == old(colorMap)
      ensures id !in old(species) ==>
        && species == old(species) + {id}
        && colorMap.Keys == old(colorMap.Keys) + {id}
        && (forall k :: k in old(colorMap) ==> colorMap[k] == old(colorMap[k]))
        && colorMap[id] !in old(colors)
        && colors == old(colors) + {colorMap[id]}
    {
      if id !in species {
        var c := DrawFresh(colors);
        RegisterKeeps(species, colors, colorMap, id, c);
        species, colors, colorMap := species + {id}, colors + {c}, colorMap[id := c];
      }
    }

    /** The colour of a species, WHITE for an unknown id. */
    function GetColor(id: nat): (c: Rgb)
      reads this
      ensures Valid() ==> (c == WHITE <==> id !in species)
      ensures Valid() && id in species ==> c in colors
    {
      if id in colorMap then
        assert colorMap[id] in colorMap.Values;
        colorMap[id]
      else
        WHITE
    }
  }

  /** Registering a new id takes the next id number up by one; registering a known id changes nothing. */
  method AddSpeciesGrowsNext(registry: Species, id: nat) returns (before: nat, after: nat)
    requires registry.Valid() && (id !in registry.species ==> |registry.species| < N_COLORS)
    modifies registry
    ensures after == before + (if id in old(registry.species) then 0 else 1)
  {
    before := registry.NextSpecies();
    registry.AddSpecies(id);
    after := registry.NextSpecies();
  }

  /** A registry built from ids {0, 1, 2}: the next id is 3, a known id has a colour other than WHITE,
      an unknown one is WHITE, and adding id 7 makes the next id 4 and gives 7 a colour of its own. */
  method RegistryExample() returns (next0: nat, next1: nat, known: Rgb, unknown: Rgb, added: Rgb)
    ensures next0 == 3 && next1 == 4
    ensures known != WHITE && Drawable(known) && unknown == WHITE
    ensures added != known && added != WHITE
  {
    var registry := new Species({0, 1, 2});
    next0 := registry.NextSpecies();
    known := registry.GetColor(1);
    unknown := registry.GetColor(7);
    registry.AddSpecies(7);
    next1 := registry.NextSpecies();
    added := registry.GetColor(7);
    assert registry.GetColor(1) == known;
  }
}
