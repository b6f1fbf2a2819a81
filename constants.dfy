/** The club's seed data helpers: the day-first to year-first date rewrite applied to the
    seed rows, the mapping of seed rows to registered players, and the default match fee. */
module Constants {
  import opened Common
  import opened Domain

  /** The fee each player owes for a match when the match sets none. */
  const MatchFeePerPlayer: int := 100

  // ---------------------------------------------------------------- split and join

  /** `s.split(c)`: the pieces between occurrences of `c`; there is always at least one. */
  function Split(s: string, c: char): (parts: seq<string>)
    ensures |parts| >= 1
    ensures forall i :: 0 <= i < |parts| ==> c !in parts[i]
  {
    if s == [] then [""]
    else if s[0] == c then [""] + Split(s[1..], c)
    else
      var rest := Split(s[1..], c);
      [[s[0]] + rest[0]] + rest[1..]
  }

  /** `parts.join(c)`. */
  function Join(parts: seq<string>, c: char): string
    requires |parts| >= 1
  {
    if |parts| == 1 then parts[0] else parts[0] + [c] + Join(parts[1..], c)
  }

  /** Splitting and joining again gives back the string. */
  lemma {:induction false} JoinSplit(s: string, c: char)
    ensures Join(Split(s, c), c) == s
  {
    if s != [] {
      JoinSplit(s[1..], c);
      var rest := Split(s[1..], c);
      if s[0] != c {
        if |rest| > 1 {
          assert ([[s[0]] + rest[0]] + rest[1..])[1..] == rest[1..];
        }
      }
    }
  }

  /** Joining pieces that do not contain the separator and splitting again gives back
      the pieces. */
  lemma {:induction false} SplitJoin(parts: seq<string>, c: char)
    requires |parts| >= 1 && forall i :: 0 <= i < |parts| ==> c !in parts[i]
    ensures Split(Join(parts, c), c) == parts
  {
    if |parts| == 1 {
      SplitNoSeparator(parts[0], c);
    } else {
      SplitJoin(parts[1..], c);
      SplitPrefix(parts[0], Join(parts[1..], c), c);
    }
  }

  lemma {:induction false} SplitNoSeparator(s: string, c: char)
    requires c !in s
    ensures Split(s, c) == [s]
  {
    if s != [] {
      SplitNoSeparator(s[1..], c);
      assert s[0] != c;
      assert [s[0]] + s[1..] == s;
    }
  }

  /** A piece without the separator, the separator, then the rest. */
  lemma {:induction false} SplitPrefix(p: string, rest: string, c: char)
    requires c !in p
    ensures Split(p + [c] + rest, c) == [p] + Split(rest, c)
  {
    var s := p + [c] + rest;
    if p == [] {
      assert s[0] == c && s[1..] == rest;
    } else {
      SplitPrefix(p[1..], rest, c);
      assert s[0] == p[0] && s[1..] == p[1..] + [c] + rest;
      assert [p[0]] + p[1..] == p;
    }
  }

  // ---------------------------------------------------------------- dates

  /** `formatDate`: a string of exactly three '-'-separated pieces has them reversed
      (day-month-year becomes year-month-day); anything else is returned as it is. */
  function FormatDate(dateStr: string): (r: string)
    ensures |Split(dateStr, '-')| != 3 ==> r == dateStr
  {
    var parts := Split(dateStr, '-');
    if |parts| == 3 then parts[2] + "-" + parts[1] + "-" + parts[0] else dateStr
  }

  /** The rewrite on a day, a month and a year. */
  lemma DayFirstToYearFirst(d: string, m: string, y: string)
    requires '-' !in d && '-' !in m && '-' !in y
    ensures FormatDate(d + "-" + m + "-" + y) == y + "-" + m + "-" + d
  {
    JoinThree(d, m, y, '-');
    SplitJoin([d, m, y], '-');
  }

  /** Rewriting a three-piece date twice gives back the original. */
  lemma FormatDateTwice(dateStr: string)
    requires |Split(dateStr, '-')| == 3
    ensures FormatDate(FormatDate(dateStr)) == dateStr
  {
    var p := Split(dateStr, '-');
    DayFirstToYearFirst(p[2], p[1], p[0]);
    DayFirstToYearFirst(p[0], p[1], p[2]);
    JoinSplit(dateStr, '-');
    JoinThree(p[0], p[1], p[2], '-');
    assert p == [p[0], p[1], p[2]];
  }

  lemma JoinThree(a: string, b: string, d: string, c: char)
    ensures Join([a, b, d], c) == a + [c] + b + [c] + d
  {
    assert [a, b, d][1..] == [b, d];
    assert [b, d][1..] == [d];
    assert Join([b, d], c) == b + [c] + d;
    assert a + [c] + (b + [c] + d) == a + [c] + b + [c] + d;
  }

  // ---------------------------------------------------------------- seed players

  /** One row of the club's seed roster. */
  datatype SeedRow = SeedRow(id: PlayerId, fullName: string, jerseyNumber: int, email: string,
                             dob: string, gender: Gender, role: PlayerRole)

  /** The whitespace the photo seed strips (ASCII only). */
  predicate IsSpace(ch: char) {
    ch == ' ' || ch == '\t' || ch == '\n' || ch == '\r' || ch == '\U{0B}' || ch == '\U{0C}'
  }

  /** `s.replace(/\s/g, '')`. */
  function RemoveSpaces(s: string): (r: string)
    ensures forall i :: 0 <= i < |r| ==> !IsSpace(r[i])
    ensures r == Filter(s, (c: char) => !IsSpace(c))
  {
    if s == [] then "" else (if IsSpace(s[0]) then "" else [s[0]]) + RemoveSpaces(s[1..])
  }

  /** The registered player made from the seed row at position `index`. */
  function SeedPlayer(row: SeedRow, index: nat): Player {
    Player(row.id, row.fullName, row.email, FormatDate(row.dob), row.gender, row.role,
           "Maharashtra", "India",
           "https://picsum.photos/seed/" + RemoveSpaces(row.fullName) + NatToString(index + 1) + "/200",
           if row.id == "p4" then FormatDate("20-05-2024") else FormatDate("01-01-2023"),
           Some(row.jerseyNumber))
  }

  /** `MOCK_PLAYERS`: one player per seed row, in order. */
  function SeedPlayers(rows: seq<SeedRow>): (ps: seq<Player>)
    ensures |ps| == |rows|
    ensures forall i :: 0 <= i < |rows| ==> ps[i] == SeedPlayer(rows[i], i)
  {
    seq(|rows|, i requires 0 <= i < |rows| => SeedPlayer(rows[i], i))
  }

  /** Every seed player keeps its row's id, name and jersey number, has its birth date
      rewritten year-first, lives in Maharashtra, India, and registered on 2024-05-20 if it is
      p4 and on 2023-01-01 otherwise. */
  lemma SeedPlayersFacts(rows: seq<SeedRow>, i: nat)
    requires i < |rows|
    ensures var p := SeedPlayers(rows)[i];
            && p.id == rows[i].id && p.fullName == rows[i].fullName
            && p.jerseyNumber == Some(rows[i].jerseyNumber)
            && p.dob == FormatDate(rows[i].dob)
            && p.state == "Maharashtra" && p.country == "India"
            && p.registrationDate == (if rows[i].id == "p4" then "2024-05-20" else "2023-01-01")
  {
    SeedRegistrationDates();
  }

  /** The rewrite on a date written with digits, character by character. */
  lemma DigitDate(d0: char, d1: char, m0: char, m1: char, y0: char, y1: char, y2: char, y3: char)
    requires d0 != '-' && d1 != '-' && m0 != '-' && m1 != '-'
    requires y0 != '-' && y1 != '-' && y2 != '-' && y3 != '-'
    ensures FormatDate([d0, d1, '-', m0, m1, '-', y0, y1, y2, y3])
            == [y0, y1, y2, y3, '-', m0, m1, '-', d0, d1]
  {
    var d, m, y := [d0, d1], [m0, m1], [y0, y1, y2, y3];
    DayFirstToYearFirst(d, m, y);
    assert d + "-" + m + "-" + y == [d0, d1, '-', m0, m1, '-', y0, y1, y2, y3];
    assert y + "-" + m + "-" + d == [y0, y1, y2, y3, '-', m0, m1, '-', d0, d1];
  }

  lemma SeedRegistrationDates()
    ensures FormatDate("20-05-2024") == "2024-05-20" && FormatDate("01-01-2023") == "2023-01-01"
  {
    LateRegistration();
    EarlyRegistration();
  }

  lemma LateRegistration()
    ensures FormatDate("20-05-2024") == "2024-05-20"
  {
    DigitDate('2', '0', '0', '5', '2', '0', '2', '4');
  }

  lemma EarlyRegistration()
    ensures FormatDate("01-01-2023") == "2023-01-01"
  {
    DigitDate('0', '1', '0', '1', '2', '0', '2', '3');
  }
}
