/** The projects timeline: four category lists, each entry tagged with its
    category, concatenated and stable-sorted newest year first; entries then
    alternate left and right along a road whose height grows with the count. */
module Timeline {
  import opened JsText

  /** An entry of one of the category lists. */
  datatype Listing = Listing(id: nat, title: string, period: string)

  /** A timeline entry: the listing's fields plus its category label. */
  datatype Entry = Entry(id: nat, title: string, period: string, category: string)

  const EnDash: char := '\U{2013}'

  const CybersecurityProjects: seq<Listing> := [
    Listing(1, "ShadowCloak", "2024 \U{2013} Present"),
    Listing(2, "ShadowVeil", "2023 \U{2013} 2024")
  ]

  const AiProjects: seq<Listing> := [
    Listing(3, "Brain Tumor Detection", "2024"),
    Listing(4, "Face Recognition System", "2024"),
    Listing(5, "Hand Tracking Project", "2024"),
    Listing(6, "Malware URL Detection", "2023 \U{2013} 2024")
  ]

  const WebProjects: seq<Listing> := [
    Listing(7, "Client & Startup Websites", "2023 \U{2013} Present")
  ]

  const AgentProjects: seq<Listing> := [
    Listing(8, "AgentZero", "2023 \U{2013} Present")
  ]

  /** `list.map(p => ({ ...p, category }))`: every listing, in order, carrying
      the label. */
  function Tag(xs: seq<Listing>, category: string): (r: seq<Entry>)
    ensures |r| == |xs|
    ensures forall i :: 0 <= i < |r| ==>
      r[i] == Entry(xs[i].id, xs[i].title, xs[i].period, category)
  {
    seq(|xs|, i requires 0 <= i < |xs| => Entry(xs[i].id, xs[i].title, xs[i].period, category))
  }

  /** The four tagged lists, concatenated before sorting. */
  function Combined(): seq<Entry> {
    Tag(CybersecurityProjects, "Cybersecurity")
      + Tag(AiProjects, "AI & ML")
      + Tag(WebProjects, "Web Development")
      + Tag(AgentProjects, "AI Agents")
  }

  /** `period.split('–')[0] || period.split('-')[0]`: the text before the
      first en dash, or before the first hyphen when that is empty. Only an
      empty period gives an empty text. */
  function YearText(period: string): (r: string)
    ensures |r| <= |period| && r == period[..|r|]
    ensures r == [] <==> period == []
  {
    var t := BeforeFirst(period, EnDash);
    if t != [] then t else BeforeFirst(period, '-')
  }

  /** The sort key: `parseInt` of the year text, possibly NaN. */
  function YearKey(e: Entry): IntOrNaN {
    ParseInt(YearText(e.period))
  }

  /** The comparator `yearB - yearA`; a NaN result counts as 0, as section
      23.1.3.30.2 of ECMA-262 (SortCompare) prescribes. */
  function Compare(ka: IntOrNaN, kb: IntOrNaN): int {
    match (ka, kb)
    case (Int(ya), Int(yb)) => yb - ya
    case _ => 0
  }

  /** Insert `x` in front of the first entry it need not follow: it passes
      only entries that compare strictly before it. */
  function Insert(key: Entry -> IntOrNaN, x: Entry, s: seq<Entry>): (r: seq<Entry>)
    ensures |r| == |s| + 1
  {
    if s == [] then [x]
    else if Compare(key(x), key(s[0])) > 0 then [s[0]] + Insert(key, x, s[1..])
    else [x] + s
  }

  /** A stable sort by the comparator: each entry is inserted in front of
      the sorted rest, before every entry with an equal key. */
  function SortBy(key: Entry -> IntOrNaN, s: seq<Entry>): (r: seq<Entry>)
    ensures |r| == |s|
  {
    if s == [] then [] else Insert(key, s[0], SortBy(key, s[1..]))
  }

  /** `allProjects`. */
  function AllProjects(): seq<Entry> {
    SortBy(YearKey, Combined())
  }

  /** Every entry has a numeric key. */
  predicate AllNumeric(key: Entry -> IntOrNaN, s: seq<Entry>) {
    forall i :: 0 <= i < |s| ==> key(s[i]).Int?
  }

  /** Newest first: numeric keys never increase along the list. */
  predicate NewestFirst(key: Entry -> IntOrNaN, s: seq<Entry>) {
    forall i, j :: 0 <= i < j < |s| && key(s[i]).Int? && key(s[j]).Int? ==>
      key(s[i]).value >= key(s[j]).value
  }

  /** The entries whose key is the year `y`, in list order. */
  function WithYear(key: Entry -> IntOrNaN, s: seq<Entry>, y: int): (r: seq<Entry>)
    ensures |r| <= |s|
  {
    if s == [] then []
    else (if key(s[0]) == Int(y) then [s[0]] else []) + WithYear(key, s[1..], y)
  }

  /** The entry at an even index sits on the left. */
  predicate IsLeft(index: nat) {
    index % 2 == 0
  }

  /** `allProjects.length * 350 + 200`, the road's height in pixels. */
  function TimelineHeight(count: nat): (h: nat)
    ensures h >= 200
  {
    count * 350 + 200
  }

  /** The y position of road marker `i` among `n`: the road's height less
      100 pixels, divided into `n + 1` equal steps, starting at 50. JavaScript
      numbers are modelled as exact reals; the `isNaN` fallback never fires
      because `n + 1` is positive. */
  function MarkerY(i: nat, n: nat): real {
    50.0 + ((i + 1) as real) * ((TimelineHeight(n) - 100) as real) / ((n + 1) as real)
  }

  /** One road marker per project, each strictly inside the road and each
      below the one before. */
  function MarkerYs(projects: seq<Entry>): (ys: seq<real>)
    ensures |ys| == |projects|
    ensures forall i :: 0 <= i < |ys| ==>
      50.0 < ys[i] < (TimelineHeight(|projects|) - 50) as real
    ensures forall i, j :: 0 <= i < j < |ys| ==> ys[i] < ys[j]
  {
    var n := |projects|;
    var ys := seq(n, i requires 0 <= i < n => MarkerY(i, n));
    forall i | 0 <= i < n
      ensures 50.0 < ys[i] < (TimelineHeight(n) - 50) as real
    {
      MarkerInsideRoad(i, n);
    }
    forall i, j | 0 <= i < j < n
      ensures ys[i] < ys[j]
    {
      MarkersIncrease(i, j, n);
    }
    ys
  }

  /** A step of `(i + 1) / (n + 1)` of a positive length lies strictly
      between nothing and the whole length. */
  lemma MarkerInsideRoad(i: nat, n: nat)
    requires i < n
    ensures 50.0 < MarkerY(i, n) < (TimelineHeight(n) - 50) as real
  {
    var d := (TimelineHeight(n) - 100) as real;
    var k := (n + 1) as real;
    var q := ((i + 1) as real) * d / k;
    assert q * k == ((i + 1) as real) * d;
    assert d > 0.0 && ((i + 1) as real) < k;
    assert q * k < d * k;
    assert q >= d ==> q * k >= d * k;
    assert q * k > 0.0;
  }

  /** Later markers sit further down the road. */
  lemma MarkersIncrease(i: nat, j: nat, n: nat)
    requires i < j
    ensures MarkerY(i, n) < MarkerY(j, n)
  {
    var d := (TimelineHeight(n) - 100) as real;
    var k := (n + 1) as real;
    assert d > 0.0 && k > 0.0;
    assert ((i + 1) as real) * d < ((j + 1) as real) * d;
  }

  /** `hasValidProjects`: the road and markers draw only for a non-empty list. */
  predicate HasValidProjects(projects: seq<Entry>) {
    |projects| > 0
  }

  // ---------------------------------------------------------------------
  // The sort's specification: a permutation, newest first, and stable.

  lemma {:induction false} InsertPermutes(key: Entry -> IntOrNaN, x: Entry, s: seq<Entry>)
    ensures multiset(Insert(key, x, s)) == multiset(s) + multiset{x}
  {
    if s != [] && Compare(key(x), key(s[0])) > 0 {
      InsertPermutes(key, x, s[1..]);
      assert s == [s[0]] + s[1..];
    }
  }

  /** The sorted list holds exactly the entries it was given. */
  lemma {:induction false} SortPermutes(key: Entry -> IntOrNaN, s: seq<Entry>)
    ensures multiset(SortBy(key, s)) == multiset(s)
  {
    if s != [] {
      SortPermutes(key, s[1..]);
      InsertPermutes(key, s[0], SortBy(key, s[1..]));
      assert s == [s[0]] + s[1..];
    }
  }

  /** Every key in the list is a number at most `y`. */
  predicate AtMost(key: Entry -> IntOrNaN, s: seq<Entry>, y: int) {
    forall i :: 0 <= i < |s| ==> key(s[i]).Int? && key(s[i]).value <= y
  }

  /** The tail of a list keeps its bound. */
  lemma AtMostTail(key: Entry -> IntOrNaN, s: seq<Entry>, y: int)
    requires s != [] && AtMost(key, s, y)
    ensures AtMost(key, s[1..], y)
  {
    forall i | 0 <= i < |s| - 1
      ensures key(s[1..][i]).Int? && key(s[1..][i]).value <= y
    {
      assert s[1..][i] == s[i + 1];
    }
  }

  /** The tail of a list newest first is newest first. */
  lemma NewestFirstTail(key: Entry -> IntOrNaN, s: seq<Entry>)
    requires s != [] && AllNumeric(key, s) && NewestFirst(key, s)
    ensures AllNumeric(key, s[1..]) && NewestFirst(key, s[1..])
    ensures AtMost(key, s[1..], key(s[0]).value)
  {
    var t := s[1..];
    forall i | 0 <= i < |t|
      ensures key(t[i]).Int? && key(t[i]).value <= key(s[0]).value
    {
      assert t[i] == s[i + 1];
    }
    forall i, j | 0 <= i < j < |t|
      ensures key(t[i]).value >= key(t[j]).value
    {
      assert t[i] == s[i + 1] && t[j] == s[j + 1];
    }
  }

  /** A bounded head in front of a bounded, newest-first list. */
  lemma ConsNewestFirst(key: Entry -> IntOrNaN, x: Entry, s: seq<Entry>)
    requires key(x).Int? && AllNumeric(key, s) && NewestFirst(key, s)
    requires AtMost(key, s, key(x).value)
    ensures AllNumeric(key, [x] + s) && NewestFirst(key, [x] + s)
    ensures forall y :: AtMost(key, s, y) && key(x).value <= y ==> AtMost(key, [x] + s, y)
  {
    var r := [x] + s;
    forall i | 0 <= i < |r|
      ensures key(r[i]).Int?
    {
      if i > 0 {
        assert r[i] == s[i - 1];
      }
    }
    forall i, j | 0 <= i < j < |r|
      ensures key(r[i]).value >= key(r[j]).value
    {
      assert r[j] == s[j - 1];
      if i > 0 {
        assert r[i] == s[i - 1];
      }
    }
    forall y | AtMost(key, s, y) && key(x).value <= y
      ensures AtMost(key, r, y)
    {
      forall i | 0 <= i < |r|
        ensures key(r[i]).Int? && key(r[i]).value <= y
      {
        if i > 0 {
          assert r[i] == s[i - 1];
        }
      }
    }
  }

  /** Inserting a numeric key into a newest-first list keeps it newest
      first, and keeps any bound both satisfy. */
  lemma {:induction false} InsertKeepsOrder(key: Entry -> IntOrNaN, x: Entry, s: seq<Entry>)
    requires key(x).Int? && AllNumeric(key, s) && NewestFirst(key, s)
    ensures AllNumeric(key, Insert(key, x, s)) && NewestFirst(key, Insert(key, x, s))
    ensures forall y :: AtMost(key, s, y) && key(x).value <= y ==> AtMost(key, Insert(key, x, s), y)
  {
    if s == [] {
      assert AtMost(key, s, key(x).value);
      ConsNewestFirst(key, x, s);
    } else if Compare(key(x), key(s[0])) > 0 {
      var t := s[1..];
      NewestFirstTail(key, s);
      InsertKeepsOrder(key, x, t);
      var rest := Insert(key, x, t);
      ConsNewestFirst(key, s[0], rest);
      forall y | AtMost(key, s, y) && key(x).value <= y
        ensures AtMost(key, Insert(key, x, s), y)
      {
        AtMostTail(key, s, y);
      }
    } else {
      forall i | 0 <= i < |s|
        ensures key(s[i]).Int? && key(s[i]).value <= key(x).value
      {
        assert key(s[0]).value >= key(s[i]).value;
      }
      ConsNewestFirst(key, x, s);
    }
  }

  /** With numeric keys, the sorted list is newest first. */
  lemma {:induction false} SortIsNewestFirst(key: Entry -> IntOrNaN, s: seq<Entry>)
    requires AllNumeric(key, s)
    ensures AllNumeric(key, SortBy(key, s)) && NewestFirst(key, SortBy(key, s))
  {
    if s != [] {
      var t := s[1..];
      forall i | 0 <= i < |t|
        ensures key(t[i]).Int?
      {
        assert t[i] == s[i + 1];
      }
      SortIsNewestFirst(key, t);
      InsertKeepsOrder(key, s[0], SortBy(key, t));
    }
  }

  /** Inserting passes no entry of the same year. */
  lemma {:induction false} WithYearInsert(key: Entry -> IntOrNaN, x: Entry, s: seq<Entry>, y: int)
    ensures WithYear(key, Insert(key, x, s), y) == YearPart(key, x, y) + WithYear(key, s, y)
  {
    if s == [] {
      assert [x][1..] == [];
    } else if Compare(key(x), key(s[0])) > 0 {
      var rest := Insert(key, x, s[1..]);
      assert Insert(key, x, s) == [s[0]] + rest;
      WithYearInsert(key, x, s[1..], y);
      WithYearCons(key, s[0], rest, y);
      WithYearCons(key, s[0], s[1..], y);
      assert [s[0]] + s[1..] == s;
      assert key(x) != key(s[0]);
      var px, p0, w1 := YearPart(key, x, y), YearPart(key, s[0], y), WithYear(key, s[1..], y);
      assert px == [] || p0 == [];
      assert p0 + (px + w1) == px + (p0 + w1);
    } else {
      assert ([x] + s)[1..] == s;
    }
  }

  /** The one-entry list of `e` when its key is the year `y`, else empty. */
  function YearPart(key: Entry -> IntOrNaN, e: Entry, y: int): seq<Entry> {
    if key(e) == Int(y) then [e] else []
  }

  /** The entries of year `y` in a list with a head. */
  lemma WithYearCons(key: Entry -> IntOrNaN, e: Entry, rest: seq<Entry>, y: int)
    ensures WithYear(key, [e] + rest, y) == YearPart(key, e, y) + WithYear(key, rest, y)
  {
    assert ([e] + rest)[1..] == rest;
  }

  /** Stability: for every year, the entries of that year keep their order. */
  lemma {:induction false} SortIsStable(key: Entry -> IntOrNaN, s: seq<Entry>, y: int)
    ensures WithYear(key, SortBy(key, s), y) == WithYear(key, s, y)
  {
    if s != [] {
      SortIsStable(key, s[1..], y);
      WithYearInsert(key, s[0], SortBy(key, s[1..]), y);
    }
  }

  // ---------------------------------------------------------------------
  // Year texts.

  /** The text before a separator that occurs after `w`. */
  lemma BeforeFirstAt(w: string, sep: char, rest: string)
    requires sep !in w
    ensures BeforeFirst(w + [sep] + rest, sep) == w
  {
    var s := w + [sep] + rest;
    assert s[..|w|] == w;
    assert s[|w|] == sep;
  }

  /** A period without either dash is its own year text. */
  lemma BeforeFirstAbsent(s: string, sep: char)
    requires sep !in s
    ensures BeforeFirst(s, sep) == s
  {
  }

  /** A range such as "2024 – Present" is keyed by its first year. */
  lemma {:induction false} RangeYear(y: nat, rest: string)
    ensures ParseInt(YearText(NatToString(y) + " " + [EnDash] + rest)) == Int(y)
  {
    var w := NatToString(y) + " ";
    assert EnDash !in w;
    BeforeFirstAt(w, EnDash, rest);
    ParseIntOfNat(y, " ");
  }

  /** A bare year such as "2024" is keyed by itself. */
  lemma {:induction false} BareYear(y: nat)
    ensures ParseInt(YearText(NatToString(y))) == Int(y)
  {
    var w := NatToString(y);
    assert EnDash !in w;
    BeforeFirstAbsent(w, EnDash);
    ParseIntRoundTrip(y);
  }

  // ---------------------------------------------------------------------
  // The shown data.

  /** Each list's entries carry that list's label, and the combined list is
      the four lists in order. */
  lemma CombinedShape()
    ensures |Combined()| == 8
    ensures forall i :: 0 <= i < 8 ==> Combined()[i].id == i + 1
    ensures forall i :: 0 <= i < 2 ==> Combined()[i].category == "Cybersecurity"
    ensures forall i :: 2 <= i < 6 ==> Combined()[i].category == "AI & ML"
    ensures Combined()[6].category == "Web Development"
    ensures Combined()[7].category == "AI Agents"
  {
  }

  lemma Text2024Present()
    ensures YearText("2024 \U{2013} Present") == "2024 "
  {
    BeforeFirstAt("2024 ", EnDash, " Present");
    assert "2024 " + [EnDash] + " Present" == "2024 \U{2013} Present";
  }

  lemma Text2023To2024()
    ensures YearText("2023 \U{2013} 2024") == "2023 "
  {
    BeforeFirstAt("2023 ", EnDash, " 2024");
    assert "2023 " + [EnDash] + " 2024" == "2023 \U{2013} 2024";
  }

  lemma Text2023Present()
    ensures YearText("2023 \U{2013} Present") == "2023 "
  {
    BeforeFirstAt("2023 ", EnDash, " Present");
    assert "2023 " + [EnDash] + " Present" == "2023 \U{2013} Present";
  }

  lemma Parse2024()
    ensures ParseInt("2024 ") == Int(2024)
  {
    assert NatToString(2024) == "2024";
    ParseIntOfNat(2024, " ");
    assert NatToString(2024) + " " == "2024 ";
  }

  lemma Parse2023()
    ensures ParseInt("2023 ") == Int(2023)
  {
    assert NatToString(2023) == "2023";
    ParseIntOfNat(2023, " ");
    assert NatToString(2023) + " " == "2023 ";
  }

  lemma Year2024()
    ensures ParseInt(YearText("2024")) == Int(2024)
  {
    BeforeFirstAbsent("2024", EnDash);
    assert NatToString(2024) == "2024";
    ParseIntRoundTrip(2024);
  }

  /** The years of eight entries with the shown periods. */
  lemma YearsOfPeriods(c: seq<Entry>)
    requires |c| == 8
    requires c[0].period == "2024 \U{2013} Present" && c[1].period == "2023 \U{2013} 2024"
    requires c[2].period == "2024" && c[3].period == "2024" && c[4].period == "2024"
    requires c[5].period == "2023 \U{2013} 2024"
    requires c[6].period == "2023 \U{2013} Present" && c[7].period == "2023 \U{2013} Present"
    ensures YearKey(c[0]) == Int(2024) && YearKey(c[1]) == Int(2023)
    ensures YearKey(c[2]) == Int(2024) && YearKey(c[3]) == Int(2024)
    ensures YearKey(c[4]) == Int(2024) && YearKey(c[5]) == Int(2023)
    ensures YearKey(c[6]) == Int(2023) && YearKey(c[7]) == Int(2023)
  {
    Text2024Present();
    Text2023To2024();
    Text2023Present();
    Parse2024();
    Parse2023();
    Year2024();
  }

  /** Eight keys that are all years make a numeric list. */
  lemma EightNumeric(key: Entry -> IntOrNaN, c: seq<Entry>)
    requires |c| == 8
    requires key(c[0]).Int? && key(c[1]).Int? && key(c[2]).Int? && key(c[3]).Int?
    requires key(c[4]).Int? && key(c[5]).Int? && key(c[6]).Int? && key(c[7]).Int?
    ensures AllNumeric(key, c)
  {
  }

  /** The periods of the combined list, in order. */
  lemma CombinedPeriods()
    ensures |Combined()| == 8
    ensures Combined()[0].period == "2024 \U{2013} Present" && Combined()[1].period == "2023 \U{2013} 2024"
    ensures Combined()[2].period == "2024" && Combined()[3].period == "2024" && Combined()[4].period == "2024"
    ensures Combined()[5].period == "2023 \U{2013} 2024"
    ensures Combined()[6].period == "2023 \U{2013} Present" && Combined()[7].period == "2023 \U{2013} Present"
  {
  }

  /** Sorting eight entries keyed 2024, 2023, 2024, 2024, 2024, 2023, 2023,
      2023: the 2024 entries in order, then the 2023 entries in order. */
  lemma {:induction false} SortEightShown(key: Entry -> IntOrNaN, c: seq<Entry>)
    requires |c| == 8
    requires key(c[0]) == Int(2024) && key(c[1]) == Int(2023)
    requires key(c[2]) == Int(2024) && key(c[3]) == Int(2024)
    requires key(c[4]) == Int(2024) && key(c[5]) == Int(2023)
    requires key(c[6]) == Int(2023) && key(c[7]) == Int(2023)
    ensures SortBy(key, c) == [c[0], c[2], c[3], c[4], c[1], c[5], c[6], c[7]]
  {
    var t := c[2..];
    assert t == [c[2], c[3], c[4], c[5], c[6], c[7]];
    assert AllNumeric(key, t) && NewestFirst(key, t);
    SortedUnchanged(key, t);
    var a, b := [c[2], c[3], c[4]], [c[5], c[6], c[7]];
    assert t == a + b;
    InsertPastNewer(key, c[1], a, b);
    assert c[1..][1..] == t;
    var s2 := a + [c[1]] + b;
    assert SortBy(key, c[1..]) == s2;
    assert Insert(key, c[0], s2) == [c[0]] + s2;
  }

  /** Inserting past a block of strictly newer entries puts the entry right
      after the block, when what follows is no newer than it. */
  lemma {:induction false} InsertPastNewer(key: Entry -> IntOrNaN, x: Entry, a: seq<Entry>, b: seq<Entry>)
    requires key(x).Int?
    requires forall i :: 0 <= i < |a| ==> key(a[i]).Int? && key(a[i]).value > key(x).value
    requires b == [] || (key(b[0]).Int? && key(b[0]).value <= key(x).value)
    ensures Insert(key, x, a + b) == a + [x] + b
  {
    if a == [] {
      assert a + b == b;
      assert a + [x] + b == [x] + b;
    } else {
      InsertPastNewer(key, x, a[1..], b);
      assert (a + b)[0] == a[0];
      assert (a + b)[1..] == a[1..] + b;
      assert a + [x] + b == [a[0]] + (a[1..] + [x] + b);
    }
  }

  /** Sorting a list that is already newest first leaves it unchanged. */
  lemma {:induction false} SortedUnchanged(key: Entry -> IntOrNaN, s: seq<Entry>)
    requires AllNumeric(key, s) && NewestFirst(key, s)
    ensures SortBy(key, s) == s
  {
    if s != [] {
      NewestFirstTail(key, s);
      SortedUnchanged(key, s[1..]);
      if |s| > 1 {
        assert key(s[0]).value >= key(s[1]).value;
      }
      assert Insert(key, s[0], s[1..]) == [s[0]] + s[1..];
      assert [s[0]] + s[1..] == s;
    }
  }

  /** The ids of a list, in order. */
  function Ids(s: seq<Entry>): (r: seq<nat>)
    ensures |r| == |s| && forall i :: 0 <= i < |s| ==> r[i] == s[i].id
  {
    seq(|s|, i requires 0 <= i < |s| => s[i].id)
  }

  lemma IdsOfShownOrder(c: seq<Entry>)
    requires |c| == 8 && forall i :: 0 <= i < 8 ==> c[i].id == i + 1
    ensures Ids([c[0], c[2], c[3], c[4], c[1], c[5], c[6], c[7]]) == [1, 3, 4, 5, 2, 6, 7, 8]
  {
  }

  /** With the shown data the timeline reads ids 1, 3, 4, 5, 2, 6, 7, 8. */
  lemma ShownOrder()
    ensures Ids(AllProjects()) == [1, 3, 4, 5, 2, 6, 7, 8]
  {
    CombinedPeriods();
    CombinedShape();
    var c := Combined();
    YearsOfPeriods(c);
    SortEightShown(YearKey, c);
    IdsOfShownOrder(c);
  }

  /** The sort's whole contract for any list with numeric keys. */
  lemma SortContract(key: Entry -> IntOrNaN, c: seq<Entry>)
    requires AllNumeric(key, c)
    ensures multiset(SortBy(key, c)) == multiset(c)
    ensures NewestFirst(key, SortBy(key, c))
    ensures forall y :: WithYear(key, SortBy(key, c), y) == WithYear(key, c, y)
  {
    SortPermutes(key, c);
    SortIsNewestFirst(key, c);
    forall y
      ensures WithYear(key, SortBy(key, c), y) == WithYear(key, c, y)
    {
      SortIsStable(key, c, y);
    }
  }

  /** `allProjects` holds the tagged entries of the four lists, newest year
      first, each year's entries in list order. */
  lemma AllProjectsSorted()
    ensures multiset(AllProjects()) == multiset(Combined())
    ensures NewestFirst(YearKey, AllProjects())
    ensures forall y :: WithYear(YearKey, AllProjects(), y) == WithYear(YearKey, Combined(), y)
  {
    CombinedPeriods();
    var c := Combined();
    YearsOfPeriods(c);
    EightNumeric(YearKey, c);
    SortContract(YearKey, c);
  }

  /** Sides alternate, starting on the left. */
  lemma SidesAlternate(index: nat)
    ensures IsLeft(0)
    ensures IsLeft(index) != IsLeft(index + 1)
  {
  }

  /** With the shown data: eight markers on a road 3000 pixels high. */
  lemma ShownRoad()
    ensures HasValidProjects(AllProjects())
    ensures |MarkerYs(AllProjects())| == 8
    ensures TimelineHeight(|AllProjects()|) == 3000
  {
    ShownOrder();
  }
}
