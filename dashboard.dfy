/** The player directory on the dashboard: the search filter, the column sort requested by
    clicking a header, and the comparator the sort uses. */
module Dashboard {
  import opened Common
  import opened Domain

  // ---------------------------------------------------------------- sort keys and values

  /** A column of the directory: one per field of a player. */
  datatype SortKey = ById | ByFullName | ByEmail | ByDob | ByGender | ByRole | ByState
                   | ByCountry | ByPhotoUrl | ByRegistrationDate | ByJerseyNumber

  datatype Direction = Ascending | Descending

  datatype SortConfig = SortConfig(key: SortKey, direction: Direction)

  /** A field's value as the comparator sees it: absent, a string or a number. */
  datatype SortValue = Missing | Text(s: string) | Num(n: int)

  function GenderName(g: Gender): string {
    match g
    case Male => "Male"
    case Female => "Female"
    case Other => "Other"
  }

  function RoleName(r: PlayerRole): string {
    match r
    case Batter => "Batter"
    case Bowler => "Bowler"
    case AllRounder => "All-Rounder"
  }

  /** `player[key]`. Only the jersey number can be absent. */
  function ValueOf(p: Player, key: SortKey): (v: SortValue)
    ensures v.Missing? <==> key == ByJerseyNumber && p.jerseyNumber.None?
    ensures key == ByJerseyNumber ==> !v.Text?
    ensures key != ByJerseyNumber ==> v.Text?
  {
    match key
    case ById => Text(p.id)
    case ByFullName => Text(p.fullName)
    case ByEmail => Text(p.email)
    case ByDob => Text(p.dob)
    case ByGender => Text(GenderName(p.gender))
    case ByRole => Text(RoleName(p.role))
    case ByState => Text(p.state)
    case ByCountry => Text(p.country)
    case ByPhotoUrl => Text(p.photoUrl)
    case ByRegistrationDate => Text(p.registrationDate)
    case ByJerseyNumber => if p.jerseyNumber.Some? then Num(p.jerseyNumber.value) else Missing
  }

  // ---------------------------------------------------------------- string order

  /** JavaScript's `<` on strings: the first differing character decides, and a proper
      prefix comes first. */
  predicate StringLess(a: string, b: string) {
    if a == [] then b != []
    else if b == [] then false
    else if a[0] != b[0] then a[0] < b[0]
    else StringLess(a[1..], b[1..])
  }

  lemma {:induction false} StringLessIrreflexive(a: string)
    ensures !StringLess(a, a)
  {
    if a != [] {
      StringLessIrreflexive(a[1..]);
    }
  }

  lemma {:induction false} StringLessTransitive(a: string, b: string, c: string)
    requires StringLess(a, b) && StringLess(b, c)
    ensures StringLess(a, c)
  {
    if a != [] && b != [] && c != [] && a[0] == b[0] && b[0] == c[0] {
      StringLessTransitive(a[1..], b[1..], c[1..]);
    }
  }

  lemma {:induction false} StringLessTotal(a: string, b: string)
    requires a != b
    ensures StringLess(a, b) || StringLess(b, a)
  {
    if a != [] && b != [] && a[0] == b[0] {
      assert a[1..] != b[1..] by {
        assert a == [a[0]] + a[1..] && b == [b[0]] + b[1..];
      }
      StringLessTotal(a[1..], b[1..]);
    }
  }

  // ---------------------------------------------------------------- the comparator

  /** `valA < valB` for two present values of one column (a column never mixes strings and
      numbers; were it to, numbers are put first). */
  predicate ValueLess(x: SortValue, y: SortValue) {
    match (x, y)
    case (Num(a), Num(b)) => a < b
    case (Text(a), Text(b)) => StringLess(a, b)
    case (Num(_), Text(_)) => true
    case _ => false
  }

  /** The comparator of `useSortableData` on two values: an absent first value sorts after
      (1), then an absent second value before (-1); otherwise -1, 1 or 0 by `<` and `>`,
      flipped when descending. */
  function CompareValues(a: SortValue, b: SortValue, direction: Direction): (c: int)
    ensures c == -1 || c == 0 || c == 1
    ensures a.Missing? ==> c == 1
    ensures !a.Missing? && b.Missing? ==> c == -1
  {
    if a.Missing? then 1
    else if b.Missing? then -1
    else if ValueLess(a, b) then (if direction == Ascending then -1 else 1)
    else if ValueLess(b, a) then (if direction == Ascending then 1 else -1)
    else 0
  }

  function Compare(a: Player, b: Player, config: SortConfig): int {
    CompareValues(ValueOf(a, config.key), ValueOf(b, config.key), config.direction)
  }

  /** `x` may come before `y` in the requested order: absent values go last in either
      direction; present values ascend or descend. */
  predicate Before(x: SortValue, y: SortValue, direction: Direction) {
    if y.Missing? then true
    else if x.Missing? then false
    else if direction == Ascending then !ValueLess(y, x)
    else !ValueLess(x, y)
  }

  lemma ValueLessIrreflexive(x: SortValue)
    ensures !ValueLess(x, x)
  {
    if x.Text? {
      StringLessIrreflexive(x.s);
    }
  }

  lemma ValueLessAsymmetric(x: SortValue, y: SortValue)
    ensures !(ValueLess(x, y) && ValueLess(y, x))
  {
    if x.Text? && y.Text? && ValueLess(x, y) && ValueLess(y, x) {
      StringLessTransitive(x.s, y.s, x.s);
      StringLessIrreflexive(x.s);
    }
  }

  lemma ValueLessTransitive(x: SortValue, y: SortValue, z: SortValue)
    requires ValueLess(x, y) && ValueLess(y, z)
    ensures ValueLess(x, z)
  {
    if x.Text? && y.Text? && z.Text? {
      StringLessTransitive(x.s, y.s, z.s);
    }
  }

  lemma ValueLessTotal(x: SortValue, y: SortValue)
    requires !x.Missing? && !y.Missing? && x != y
    ensures ValueLess(x, y) || ValueLess(y, x)
  {
    if x.Text? && y.Text? {
      StringLessTotal(x.s, y.s);
    }
  }

  /** Any two values can be put in order. */
  lemma BeforeTotal(x: SortValue, y: SortValue, direction: Direction)
    ensures Before(x, y, direction) || Before(y, x, direction)
  {
    ValueLessAsymmetric(x, y);
  }

  /** The order is transitive. */
  lemma BeforeTransitive(x: SortValue, y: SortValue, z: SortValue, direction: Direction)
    requires Before(x, y, direction) && Before(y, z, direction)
    ensures Before(x, z, direction)
  {
    if !z.Missing? {
      assert !y.Missing? && !x.Missing?;
      if direction == Ascending {
        if ValueLess(z, x) {
          if z == y {
          } else if ValueLess(y, z) {
            ValueLessTransitive(y, z, x);
          } else {
            ValueLessTotal(y, z);
          }
        }
      } else {
        if ValueLess(x, z) {
          if z == y {
          } else if ValueLess(z, y) {
            ValueLessTransitive(x, z, y);
          } else {
            ValueLessTotal(y, z);
          }
        }
      }
    }
  }

  /** The comparator answers as the order does whenever one of the two values is present:
      negative exactly when the first must come first, positive exactly when the second
      must, and 0 for values that may come either way. (Two absent values compare as 1 both
      ways, an answer no order gives; the sort below keeps them in list order.) */
  lemma CompareAgrees(a: SortValue, b: SortValue, direction: Direction)
    requires !(a.Missing? && b.Missing?)
    ensures CompareValues(a, b, direction) < 0 <==> !Before(b, a, direction)
    ensures CompareValues(a, b, direction) > 0 <==> !Before(a, b, direction)
    ensures CompareValues(a, b, direction) == 0 <==> Before(a, b, direction) && Before(b, a, direction)
  {
    ValueLessAsymmetric(a, b);
  }

  // ---------------------------------------------------------------- sorting

  /** The list is in the requested order. */
  ghost predicate SortedBy(s: seq<Player>, config: SortConfig) {
    forall i, j :: 0 <= i < j < |s| ==> Before(ValueOf(s[i], config.key), ValueOf(s[j], config.key), config.direction)
  }

  /** Places a player after every player that may come before it. */
  function Insert(p: Player, s: seq<Player>, config: SortConfig): (r: seq<Player>)
    ensures multiset(r) == multiset(s) + multiset{p}
  {
    if s == [] then [p]
    else if !Before(ValueOf(s[0], config.key), ValueOf(p, config.key), config.direction) then [p] + s
    else
      var rest := Insert(p, s[1..], config);
      assert s == [s[0]] + s[1..];
      [s[0]] + rest
  }

  lemma {:induction false} InsertSorted(p: Player, s: seq<Player>, config: SortConfig)
    requires SortedBy(s, config)
    ensures SortedBy(Insert(p, s, config), config)
  {
    var key, dir := config.key, config.direction;
    if s == [] {
    } else if !Before(ValueOf(s[0], key), ValueOf(p, key), dir) {
      BeforeTotal(ValueOf(s[0], key), ValueOf(p, key), dir);
      var r := [p] + s;
      forall i, j | 0 <= i < j < |r| ensures Before(ValueOf(r[i], key), ValueOf(r[j], key), dir) {
        if i == 0 && j > 1 {
          BeforeTransitive(ValueOf(p, key), ValueOf(s[0], key), ValueOf(s[j - 1], key), dir);
        }
      }
    } else {
      assert SortedBy(s[1..], config);
      InsertSorted(p, s[1..], config);
      var rest := Insert(p, s[1..], config);
      var r := [s[0]] + rest;
      HeadBeforeInsert(p, s, config);
      forall i, j | 0 <= i < j < |r| ensures Before(ValueOf(r[i], key), ValueOf(r[j], key), dir) {
        if i > 0 {
          assert r[i] == rest[i - 1] && r[j] == rest[j - 1];
        }
      }
    }
  }

  /** The first player of a sorted list, when it may come before the inserted one, may come
      before every player of the rest after the insertion. */
  lemma HeadBeforeInsert(p: Player, s: seq<Player>, config: SortConfig)
    requires s != [] && SortedBy(s, config)
    requires Before(ValueOf(s[0], config.key), ValueOf(p, config.key), config.direction)
    ensures forall j :: 0 <= j < |Insert(p, s[1..], config)| ==>
              Before(ValueOf(s[0], config.key), ValueOf(Insert(p, s[1..], config)[j], config.key), config.direction)
  {
    var rest := Insert(p, s[1..], config);
    forall j | 0 <= j < |rest| ensures Before(ValueOf(s[0], config.key), ValueOf(rest[j], config.key), config.direction) {
      assert rest[j] in multiset(rest);
      if rest[j] != p {
        assert rest[j] in multiset(s[1..]);
        var k :| 0 <= k < |s[1..]| && s[1..][k] == rest[j];
        assert s[k + 1] == rest[j];
      }
    }
  }

  /** Insertion sort: each player in turn placed into the sorted players before it. */
  function SortBy(s: seq<Player>, config: SortConfig): (r: seq<Player>)
    ensures multiset(r) == multiset(s)
  {
    if s == [] then []
    else
      assert s == s[..|s| - 1] + [s[|s| - 1]];
      Insert(s[|s| - 1], SortBy(s[..|s| - 1], config), config)
  }

  /** The sorted list is in order. */
  lemma {:induction false} SortBySorted(s: seq<Player>, config: SortConfig)
    ensures SortedBy(SortBy(s, config), config)
  {
    if s != [] {
      SortBySorted(s[..|s| - 1], config);
      InsertSorted(s[|s| - 1], SortBy(s[..|s| - 1], config), config);
    }
  }

  /** The sorted items: the list as given when no column is selected, otherwise the same
      players in the column's order. */
  function SortedItems(items: seq<Player>, config: Option<SortConfig>): (r: seq<Player>)
    ensures config.None? ==> r == items
    ensures multiset(r) == multiset(items)
  {
    if config.None? then items else SortBy(items, config.value)
  }

  /** In a sorted list the players without a value for the column come last, in either
      direction. */
  lemma MissingLast(items: seq<Player>, config: SortConfig, i: nat, j: nat)
    requires i < j < |SortedItems(items, Some(config))|
    requires ValueOf(SortedItems(items, Some(config))[i], config.key).Missing?
    ensures ValueOf(SortedItems(items, Some(config))[j], config.key).Missing?
  {
    SortBySorted(items, config);
  }

  /** `requestSort`: clicking the column sorted ascending turns it descending; any other
      click sorts that column ascending. */
  function NextConfig(current: Option<SortConfig>, key: SortKey): (c: SortConfig)
    ensures c.key == key
    ensures c.direction == Descending <==> current == Some(SortConfig(key, Ascending))
  {
    if current.Some? && current.value.key == key && current.value.direction == Ascending
    then SortConfig(key, Descending)
    else SortConfig(key, Ascending)
  }

  /** Clicking the same column twice in a row flips its direction each time. */
  lemma ClickTwiceFlips(current: Option<SortConfig>, key: SortKey)
    ensures NextConfig(Some(NextConfig(current, key)), key).direction != NextConfig(current, key).direction
    ensures NextConfig(Some(NextConfig(Some(NextConfig(current, key)), key)), key) == NextConfig(current, key)
  {
  }

  // ---------------------------------------------------------------- filtering

  /** The search matches the name (any case), or a set, non-zero jersey number whose digits
      contain the term as typed. */
  predicate MatchesSearch(p: Player, term: string) {
    Includes(Lower(p.fullName), Lower(term))
    || (p.jerseyNumber.Some? && p.jerseyNumber.value != 0 && Includes(IntToString(p.jerseyNumber.value), term))
  }

  /** `filteredPlayers`. */
  function FilteredPlayers(players: seq<Player>, term: string): (r: seq<Player>)
    ensures forall p :: p in r ==> p in players && MatchesSearch(p, term)
    ensures forall p :: p in players && MatchesSearch(p, term) ==> p in r
  {
    Filter(players, p => MatchesSearch(p, term))
  }

  /** An empty search shows every player, in order. */
  lemma {:induction false} EmptySearchKeepsAll(players: seq<Player>)
    ensures FilteredPlayers(players, "") == players
  {
    if players != [] {
      EmptySearchKeepsAll(players[1..]);
      assert OccursAt(Lower(players[0].fullName), "", 0);
      assert MatchesSearch(players[0], "");
      assert [players[0]] + players[1..] == players;
    }
  }

  /** The directory's sort state. */
  class Directory {
    var sortConfig: Option<SortConfig>

    constructor ()
      ensures sortConfig.None?
    {
      sortConfig := None;
    }

    /** `requestSort`. */
    method RequestSort(key: SortKey)
      modifies this
      ensures sortConfig == Some(NextConfig(old(sortConfig), key))
    {
      var direction := Ascending;
      if sortConfig.Some? && sortConfig.value.key == key && sortConfig.value.direction == Ascending {
        direction := Descending;
      }
      sortConfig := Some(SortConfig(key, direction));
    }

    /** The players shown: those the search matches, in the requested order. */
    function Items(players: seq<Player>, term: string): (r: seq<Player>)
      reads this
      ensures multiset(r) == multiset(FilteredPlayers(players, term))
    {
      SortedItems(FilteredPlayers(players, term), sortConfig)
    }
  }
}
