/**
 * The AD&D 2e stat-block extractor (extract_statblocks.py): the record a
 * stat block is read into, its Markdown serialisation, the first-match
 * search that fills each field, the validity rule of a block, and the
 * file name a block is written under.
 *
 * Regular-expression matching itself is not modelled: `re.search(pattern,
 * text, re.IGNORECASE)` is a parameter `search` that yields the text of the
 * pattern's first group, or None when the pattern does not match.
 */
module StatBlocks {
  import opened Wrappers
  import opened Text

  datatype StatBlock = StatBlock(
    name: string,
    raceClass: string,
    alignment: string,
    // combat statistics
    ac: string,
    thac0: string,
    hp: string,
    mv: string,
    attacks: string,
    damage: string,
    // special abilities
    specialAttacks: string,
    specialDefenses: string,
    magicResistance: string,
    // other statistics
    size: string,
    morale: string,
    xp: string,
    // ability scores
    strength: string,
    dexterity: string,
    constitution: string,
    intelligence: string,
    wisdom: string,
    charisma: string,
    equipment: seq<string>,
    spells: seq<string>,
    rawText: string,
    sourceLocation: string)

  /** `StatBlock()`: every text field empty, no equipment, no spells. */
  const EmptyBlock := StatBlock("", "", "", "", "", "", "", "", "", "", "", "",
    "", "", "", "", "", "", "", "", "", [], [], "", "")

  // ---------------------------------------------------------------------------
  // Markdown serialisation (`StatBlock.to_markdown`)
  // ---------------------------------------------------------------------------

  /** One labelled value; it is printed only when the value is non-empty. */
  datatype Stat = Stat(key: string, value: string)

  /** The four ways a labelled value is printed. */
  datatype Style =
    | TableRow   // `| **AC** | 5 |`
    | Bullet     // `- **Special Attacks:** poison`
    | Plain      // `Str 18`
    | Bold       // `**Size:** M`

  function Render(style: Style, s: Stat): string
  {
    match style
    case TableRow => "| **" + s.key + "** | " + s.value + " |"
    case Bullet => "- **" + s.key + ":** " + s.value
    case Plain => s.key + " " + s.value
    case Bold => "**" + s.key + ":** " + s.value
  }

  /** The line of `s`, or nothing when its value is empty. */
  function Item(style: Style, s: Stat): seq<string>
  {
    if s.value != "" then [Render(style, s)] else []
  }

  /** The lines of the non-empty values of `stats`, in the order of `stats`. */
  function Present(style: Style, stats: seq<Stat>): seq<string>
  {
    if stats == [] then []
    else Present(style, stats[..|stats| - 1]) + Item(style, stats[|stats| - 1])
  }

  /** How many of `stats` have a non-empty value. */
  function PresentCount(stats: seq<Stat>): nat
  {
    if stats == [] then 0
    else PresentCount(stats[..|stats| - 1]) + (if stats[|stats| - 1].value != "" then 1 else 0)
  }

  function CombatStats(b: StatBlock): seq<Stat>
  {
    [Stat("AC", b.ac), Stat("THAC0", b.thac0), Stat("hp", b.hp),
     Stat("MV", b.mv), Stat("#AT", b.attacks), Stat("Dmg", b.damage)]
  }

  function SpecialStats(b: StatBlock): seq<Stat>
  {
    [Stat("Special Attacks", b.specialAttacks), Stat("Special Defenses", b.specialDefenses),
     Stat("Magic Resistance", b.magicResistance)]
  }

  function AbilityStats(b: StatBlock): seq<Stat>
  {
    [Stat("Str", b.strength), Stat("Dex", b.dexterity), Stat("Con", b.constitution),
     Stat("Int", b.intelligence), Stat("Wis", b.wisdom), Stat("Cha", b.charisma)]
  }

  function OtherStats(b: StatBlock): seq<Stat>
  {
    [Stat("Size", b.size), Stat("Morale", b.morale), Stat("Alignment", b.alignment), Stat("XP", b.xp)]
  }

  /** `- item` for every element, in list order. */
  function Bullets(items: seq<string>): (r: seq<string>)
    ensures |r| == |items|
    ensures forall i :: 0 <= i < |items| ==> r[i] == "- " + items[i]
  {
    if items == [] then [] else Bullets(items[..|items| - 1]) + ["- " + items[|items| - 1]]
  }

  const CombatHeading := "### Combat Statistics"
  const TableHeader := "| Stat | Value |"
  const TableRule := "|------|-------|"
  const SpecialHeading := "### Special Abilities"
  const AbilityHeading := "### Ability Scores"
  const OtherHeading := "### Additional Info"
  const Rule := "---"

  function Header(b: StatBlock): seq<string>
  {
    ["## " + b.name, ""] + (if b.raceClass != "" then ["*" + b.raceClass + "*", ""] else [])
  }

  function Combat(b: StatBlock): seq<string>
  {
    [CombatHeading, "", TableHeader, TableRule] + Present(TableRow, CombatStats(b)) + [""]
  }

  function Special(b: StatBlock): seq<string>
  {
    if b.specialAttacks != "" || b.specialDefenses != "" || b.magicResistance != "" then
      [SpecialHeading, ""] + Present(Bullet, SpecialStats(b)) + [""]
    else []
  }

  /** A heading over one line of `parts` separated by ` | `; nothing when there are no parts. */
  function JoinedSection(heading: string, parts: seq<string>): seq<string>
  {
    if parts != [] then [heading, "", Join(parts, " | "), ""] else []
  }

  function Abilities(b: StatBlock): seq<string>
  {
    JoinedSection(AbilityHeading, Present(Plain, AbilityStats(b)))
  }

  function Other(b: StatBlock): seq<string>
  {
    JoinedSection(OtherHeading, Present(Bold, OtherStats(b)))
  }

  function ListSection(title: string, items: seq<string>): seq<string>
  {
    if items != [] then ["### " + title, ""] + Bullets(items) + [""] else []
  }

  /**
   * The lines `to_markdown` joins with newlines. They start with the
   * `## name` heading and a blank line and end with the `---` rule and a
   * blank line, with at least the five lines of the combat table between them.
   */
  function MarkdownLines(b: StatBlock): (lines: seq<string>)
    ensures |lines| >= 9
    ensures lines[0] == "## " + b.name && lines[1] == ""
    ensures lines[|lines| - 2] == Rule && lines[|lines| - 1] == ""
  {
    var h := Header(b);
    var body := h + Combat(b) + Special(b) + Abilities(b) + Other(b)
      + ListSection("Equipment", b.equipment) + ListSection("Spells", b.spells);
    assert |body| >= |h| + 5 && body[0] == h[0] && body[1] == h[1];
    body + [Rule, ""]
  }

  lemma PresentSnoc(style: Style, stats: seq<Stat>, s: Stat)
    ensures Present(style, stats + [s]) == Present(style, stats) + Item(style, s)
  {
    assert (stats + [s])[..|stats|] == stats;
  }

  /** `PresentSnoc` behind a fixed prefix. */
  lemma PresentStep(style: Style, head: seq<string>, done: seq<Stat>, x: Stat)
    ensures head + Present(style, done + [x]) == head + Present(style, done) + Item(style, x)
  {
    PresentSnoc(style, done, x);
  }

  /** One line per non-empty value. */
  lemma {:induction false} PresentLength(style: Style, stats: seq<Stat>)
    ensures |Present(style, stats)| == PresentCount(stats)
  {
    if stats != [] {
      PresentLength(style, stats[..|stats| - 1]);
    }
  }

  /**
   * The value at position `k` is printed exactly when it is non-empty, and
   * then as line number "how many values before it are non-empty": the
   * printed values keep their fixed order.
   */
  lemma {:induction false} PresentAt(style: Style, stats: seq<Stat>, k: nat)
    requires k < |stats| && stats[k].value != ""
    ensures PresentCount(stats[..k]) < |Present(style, stats)|
    ensures Present(style, stats)[PresentCount(stats[..k])] == Render(style, stats[k])
  {
    var n := |stats|;
    var init := stats[..n - 1];
    PresentLength(style, init);
    assert Present(style, stats) == Present(style, init) + Item(style, stats[n - 1]);
    if k < n - 1 {
      PresentAt(style, init, k);
      assert init[..k] == stats[..k];
      assert init[k] == stats[k];
    } else {
      assert stats[..k] == init;
    }
  }

  /** Every printed line is the line of a non-empty value, at that value's position. */
  lemma {:induction false} PresentOnly(style: Style, stats: seq<Stat>, j: nat)
    requires j < |Present(style, stats)|
    ensures exists k :: (0 <= k < |stats| && stats[k].value != "" && PresentCount(stats[..k]) == j
      && Present(style, stats)[j] == Render(style, stats[k]))
  {
    var n := |stats|;
    var init := stats[..n - 1];
    var last := stats[n - 1];
    PresentLength(style, init);
    assert Present(style, stats) == Present(style, init) + Item(style, last);
    if j < |Present(style, init)| {
      PresentOnly(style, init, j);
      var k :| 0 <= k < |init| && init[k].value != "" && PresentCount(init[..k]) == j
        && Present(style, init)[j] == Render(style, init[k]);
      assert init[..k] == stats[..k];
      assert init[k] == stats[k];
    } else {
      assert stats[..n - 1] == init;
      assert last.value != "" && PresentCount(stats[..n - 1]) == j;
    }
  }

  /** No line is printed exactly when every value is empty. */
  lemma {:induction false} PresentEmpty(style: Style, stats: seq<Stat>)
    ensures Present(style, stats) == [] <==> forall k :: 0 <= k < |stats| ==> stats[k].value == ""
  {
    if stats != [] {
      var n := |stats|;
      var init := stats[..n - 1];
      PresentEmpty(style, init);
      assert forall k :: 0 <= k < n - 1 ==> init[k] == stats[k];
    }
  }

  /** Dropping the last of `n + 1` values drops its line, if any. */
  lemma PresentLast(style: Style, head: seq<string>, s: seq<Stat>)
    requires s != []
    ensures head + Present(style, s)
      == head + Present(style, s[..|s| - 1]) + Item(style, s[|s| - 1])
  {
  }

  lemma TwoInOrder(style: Style, head: seq<string>, s: seq<Stat>)
    requires |s| == 2
    ensures head + Present(style, s) == head + Item(style, s[0]) + Item(style, s[1])
  {
    PresentLast(style, head, s);
    PresentLast(style, head, s[..1]);
    assert s[..1][..0] == [];
    assert head + Present(style, s[..1][..0]) == head;
  }

  lemma ThreeInOrder(style: Style, head: seq<string>, s: seq<Stat>)
    requires |s| == 3
    ensures head + Present(style, s)
      == head + Item(style, s[0]) + Item(style, s[1]) + Item(style, s[2])
  {
    PresentLast(style, head, s);
    TwoInOrder(style, head, s[..2]);
  }

  lemma FourInOrder(style: Style, head: seq<string>, s: seq<Stat>)
    requires |s| == 4
    ensures head + Present(style, s)
      == head + Item(style, s[0]) + Item(style, s[1]) + Item(style, s[2]) + Item(style, s[3])
  {
    PresentLast(style, head, s);
    ThreeInOrder(style, head, s[..3]);
  }

  lemma FiveInOrder(style: Style, head: seq<string>, s: seq<Stat>)
    requires |s| == 5
    ensures head + Present(style, s)
      == head + Item(style, s[0]) + Item(style, s[1]) + Item(style, s[2]) + Item(style, s[3])
        + Item(style, s[4])
  {
    PresentLast(style, head, s);
    FourInOrder(style, head, s[..4]);
  }

  lemma SixInOrder(style: Style, head: seq<string>, s: seq<Stat>)
    requires |s| == 6
    ensures head + Present(style, s)
      == head + Item(style, s[0]) + Item(style, s[1]) + Item(style, s[2])
        + Item(style, s[3]) + Item(style, s[4]) + Item(style, s[5])
  {
    PresentLast(style, head, s);
    FiveInOrder(style, head, s[..5]);
  }

  /**
   * The Special Abilities heading is printed exactly when a bullet follows
   * it, that is, when special attacks, special defenses or magic resistance
   * is non-empty.
   */
  lemma SpecialIff(b: StatBlock)
    ensures Special(b) != [] <==> Present(Bullet, SpecialStats(b)) != []
    ensures Special(b) != [] <==> (b.specialAttacks != "" || b.specialDefenses != "" || b.magicResistance != "")
  {
    ThreeInOrder(Bullet, [], SpecialStats(b));
  }

  /** The Ability Scores section is printed exactly when some ability score is non-empty. */
  lemma AbilitiesIff(b: StatBlock)
    ensures Abilities(b) != [] <==>
      (b.strength != "" || b.dexterity != "" || b.constitution != ""
        || b.intelligence != "" || b.wisdom != "" || b.charisma != "")
  {
    SixInOrder(Plain, [], AbilityStats(b));
  }

  /** The Additional Info section is printed exactly when size, morale, alignment or XP is non-empty. */
  lemma OtherIff(b: StatBlock)
    ensures Other(b) != [] <==> (b.size != "" || b.morale != "" || b.alignment != "" || b.xp != "")
  {
    FourInOrder(Bold, [], OtherStats(b));
  }

  /**
   * Joined with newlines, lines that start with some first line and a blank
   * line and end with `---` and a blank line give a text that starts with
   * the first line and two newlines and ends with a newline, `---` and a
   * newline.
   */
  lemma JoinFrame(lines: seq<string>)
    requires |lines| >= 4 && lines[1] == "" && lines[|lines| - 2] == Rule && lines[|lines| - 1] == ""
    ensures var text := Join(lines, "\n");
      && lines[0] + "\n\n" <= text
      && |text| >= 5 && text[|text| - 5..] == "\n---\n"
  {
    var n := |lines|;
    JoinPrefix(lines, "\n", 2);
    assert lines[..2][..1] == [lines[0]];
    assert Join(lines[..2], "\n") == lines[0] + "\n" + "";
    assert lines[..n][..n - 1] == lines[..n - 1];
    assert lines[..n - 1][..n - 2] == lines[..n - 2];
    var front := Join(lines[..n - 2], "\n");
    assert Join(lines, "\n") == front + "\n" + Rule + "\n" + "";
    assert front + "\n" + Rule + "\n" + "" == front + "\n---\n";
  }

  /**
   * The Markdown text of a block starts with `## name` and two newlines and
   * ends with a newline, `---` and a newline.
   */
  lemma MarkdownFrame(b: StatBlock)
    ensures var text := Join(MarkdownLines(b), "\n");
      && "## " + b.name + "\n\n" <= text
      && |text| >= 5 && text[|text| - 5..] == "\n---\n"
  {
    JoinFrame(MarkdownLines(b));
  }

  /** `StatBlock.to_markdown`: builds the lines section by section, then joins them. */
  method ToMarkdown(b: StatBlock) returns (text: string)
    ensures text == Join(MarkdownLines(b), "\n")
  {
    var lines: seq<string> := [];
    lines := lines + ["## " + b.name];
    lines := lines + [""];
    if b.raceClass != "" {
      lines := lines + ["*" + b.raceClass + "*"];
      lines := lines + [""];
    }
    assert lines == Header(b);
    lines := AppendCombat(lines, b);
    lines := AppendSpecial(lines, b);
    lines := AppendAbilities(lines, b);
    lines := AppendOther(lines, b);
    lines := AppendList(lines, "Equipment", b.equipment);
    lines := AppendList(lines, "Spells", b.spells);
    ghost var body := lines;
    lines := lines + [Rule];
    lines := lines + [""];
    assert lines == body + [Rule, ""];
    text := Join(lines, "\n");
  }

  /** `if value: lines.append(line)`. */
  method AppendPresent(lines: seq<string>, style: Style, s: Stat) returns (r: seq<string>)
    ensures r == lines + Item(style, s)
  {
    r := lines;
    if s.value != "" {
      r := r + [Render(style, s)];
    }
  }

  /** The combat table: heading, header, one row per non-empty statistic, blank line. */
  method AppendCombat(lines: seq<string>, b: StatBlock) returns (r: seq<string>)
    ensures r == lines + Combat(b)
  {
    var rows := CombatRows(b);
    r := lines + [CombatHeading, "", TableHeader, TableRule] + rows + [""];
  }

  /** The table rows of the combat statistics that are non-empty. */
  method CombatRows(b: StatBlock) returns (rows: seq<string>)
    ensures rows == Present(TableRow, CombatStats(b))
  {
    rows := [];
    rows := AppendPresent(rows, TableRow, Stat("AC", b.ac));
    rows := AppendPresent(rows, TableRow, Stat("THAC0", b.thac0));
    rows := AppendPresent(rows, TableRow, Stat("hp", b.hp));
    rows := AppendPresent(rows, TableRow, Stat("MV", b.mv));
    rows := AppendPresent(rows, TableRow, Stat("#AT", b.attacks));
    rows := AppendPresent(rows, TableRow, Stat("Dmg", b.damage));
    SixInOrder(TableRow, [], CombatStats(b));
  }

  /** The special abilities, only when one of them is non-empty. */
  method AppendSpecial(lines: seq<string>, b: StatBlock) returns (r: seq<string>)
    ensures r == lines + Special(b)
  {
    r := lines;
    if b.specialAttacks != "" || b.specialDefenses != "" || b.magicResistance != "" {
      var special := SpecialLines(b);
      r := r + [SpecialHeading, ""] + special + [""];
    }
  }

  /** The bullet lines of the special abilities that are non-empty. */
  method SpecialLines(b: StatBlock) returns (special: seq<string>)
    ensures special == Present(Bullet, SpecialStats(b))
  {
    special := [];
    special := AppendPresent(special, Bullet, Stat("Special Attacks", b.specialAttacks));
    special := AppendPresent(special, Bullet, Stat("Special Defenses", b.specialDefenses));
    special := AppendPresent(special, Bullet, Stat("Magic Resistance", b.magicResistance));
    ThreeInOrder(Bullet, [], SpecialStats(b));
  }

  /** The present ability scores on one line, separated by ` | `. */
  method AppendAbilities(lines: seq<string>, b: StatBlock) returns (r: seq<string>)
    ensures r == lines + Abilities(b)
  {
    var abilities: seq<string> := [];
    abilities := AppendPresent(abilities, Plain, Stat("Str", b.strength));
    abilities := AppendPresent(abilities, Plain, Stat("Dex", b.dexterity));
    abilities := AppendPresent(abilities, Plain, Stat("Con", b.constitution));
    abilities := AppendPresent(abilities, Plain, Stat("Int", b.intelligence));
    abilities := AppendPresent(abilities, Plain, Stat("Wis", b.wisdom));
    abilities := AppendPresent(abilities, Plain, Stat("Cha", b.charisma));
    SixInOrder(Plain, [], AbilityStats(b));
    assert abilities == Present(Plain, AbilityStats(b));
    r := AppendJoined(lines, AbilityHeading, abilities);
  }

  /** Size, morale, alignment and XP on one line, separated by ` | `. */
  method AppendOther(lines: seq<string>, b: StatBlock) returns (r: seq<string>)
    ensures r == lines + Other(b)
  {
    var other: seq<string> := [];
    other := AppendPresent(other, Bold, Stat("Size", b.size));
    other := AppendPresent(other, Bold, Stat("Morale", b.morale));
    other := AppendPresent(other, Bold, Stat("Alignment", b.alignment));
    other := AppendPresent(other, Bold, Stat("XP", b.xp));
    FourInOrder(Bold, [], OtherStats(b));
    assert other == Present(Bold, OtherStats(b));
    r := AppendJoined(lines, OtherHeading, other);
  }

  /** `if parts: lines += [heading, "", " | ".join(parts), ""]`. */
  method AppendJoined(lines: seq<string>, heading: string, parts: seq<string>) returns (r: seq<string>)
    ensures r == lines + JoinedSection(heading, parts)
  {
    r := lines;
    if parts != [] {
      r := r + [heading];
      r := r + [""];
      r := r + [Join(parts, " | ")];
      r := r + [""];
    }
  }

  /** One `### title` section with a `- item` line per element; nothing for an empty list. */
  method AppendList(lines: seq<string>, title: string, items: seq<string>) returns (r: seq<string>)
    ensures r == lines + ListSection(title, items)
  {
    r := lines;
    if items != [] {
      r := r + ["### " + title, ""];
      r := AppendBullets(r, items);
      r := r + [""];
    }
  }

  /** `lines.append(f"- {item}")` for every element, in list order. */
  method AppendBullets(lines: seq<string>, items: seq<string>) returns (r: seq<string>)
    ensures r == lines + Bullets(items)
  {
    r := lines;
    for i := 0 to |items|
      invariant r == lines + Bullets(items[..i])
    {
      assert items[..i + 1][..i] == items[..i];
      assert Bullets(items[..i + 1]) == Bullets(items[..i]) + ["- " + items[i]];
      r := r + ["- " + items[i]];
    }
    assert items[..|items|] == items;
  }

  // ---------------------------------------------------------------------------
  // First-match search (`parse_stat_value`)
  // ---------------------------------------------------------------------------

  /**
   * The stripped group of the first pattern, in list order, that matches;
   * the empty string when none does. `search(text, p)` is
   * `re.search(p, text, re.IGNORECASE)` reduced to the text of group 1.
   */
  function ParseStatValue<P>(text: string, patterns: seq<P>, search: (string, P) -> Option<string>)
    : (r: string)
    ensures (forall i :: 0 <= i < |patterns| ==> search(text, patterns[i]).None?) ==> r == ""
    ensures forall k :: (0 <= k < |patterns| && search(text, patterns[k]).Some?
      && (forall i :: 0 <= i < k ==> search(text, patterns[i]).None?)
      ==> r == Strip(search(text, patterns[k]).value))
    ensures r != [] ==> !IsSpace(r[0]) && !IsSpace(r[|r| - 1])
  {
    FirstMatch(text, patterns, search, 0)
  }

  /** `ParseStatValue` on the patterns from position `from` on. */
  function FirstMatch<P>(text: string, patterns: seq<P>, search: (string, P) -> Option<string>, from: nat)
    : (r: string)
    requires from <= |patterns|
    ensures (forall i :: from <= i < |patterns| ==> search(text, patterns[i]).None?) ==> r == ""
    ensures forall k :: (from <= k < |patterns| && search(text, patterns[k]).Some?
      && (forall i :: from <= i < k ==> search(text, patterns[i]).None?)
      ==> r == Strip(search(text, patterns[k]).value))
    ensures r != [] ==> !IsSpace(r[0]) && !IsSpace(r[|r| - 1])
    decreases |patterns| - from
  {
    if from == |patterns| then ""
    else
      match search(text, patterns[from])
      case Some(group) => Strip(group)
      case None => FirstMatch(text, patterns, search, from + 1)
  }

  // ---------------------------------------------------------------------------
  // Reading one block (`extract_stat_block`)
  // ---------------------------------------------------------------------------

  /** The fields `extract_stat_block` fills, in the order it fills them. */
  datatype Field =
    | Ac | Thac0 | Hp | Mv | Attacks | Damage
    | SpecialAttacks | SpecialDefenses | MagicResistance
    | Size | Morale | Xp | Alignment
    | Strength | Dexterity | Constitution | Intelligence | Wisdom | Charisma

  /** The first 13 fields come from the statistic patterns, the last 6 from the ability patterns. */
  const StatFieldCount := 13
  const FieldCount := 19

  function FieldIndex(f: Field): (n: nat)
    ensures n < FieldCount
  {
    match f
    case Ac => 0 case Thac0 => 1 case Hp => 2 case Mv => 3 case Attacks => 4 case Damage => 5
    case SpecialAttacks => 6 case SpecialDefenses => 7 case MagicResistance => 8
    case Size => 9 case Morale => 10 case Xp => 11 case Alignment => 12
    case Strength => 13 case Dexterity => 14 case Constitution => 15
    case Intelligence => 16 case Wisdom => 17 case Charisma => 18
  }

  function FieldAt(i: nat): (f: Field)
    requires i < FieldCount
    ensures FieldIndex(f) == i
  {
    if i == 0 then Ac else if i == 1 then Thac0 else if i == 2 then Hp
    else if i == 3 then Mv else if i == 4 then Attacks else if i == 5 then Damage
    else if i == 6 then SpecialAttacks else if i == 7 then SpecialDefenses
    else if i == 8 then MagicResistance else if i == 9 then Size
    else if i == 10 then Morale else if i == 11 then Xp else if i == 12 then Alignment
    else if i == 13 then Strength else if i == 14 then Dexterity
    else if i == 15 then Constitution else if i == 16 then Intelligence
    else if i == 17 then Wisdom else Charisma
  }

  /** Every field has exactly one position. */
  lemma FieldAtIndex(f: Field)
    ensures FieldIndex(f) < FieldCount && FieldAt(FieldIndex(f)) == f
  {
  }

  function Get(b: StatBlock, f: Field): string
  {
    match f
    case Ac => b.ac case Thac0 => b.thac0 case Hp => b.hp case Mv => b.mv
    case Attacks => b.attacks case Damage => b.damage
    case SpecialAttacks => b.specialAttacks case SpecialDefenses => b.specialDefenses
    case MagicResistance => b.magicResistance
    case Size => b.size case Morale => b.morale case Xp => b.xp case Alignment => b.alignment
    case Strength => b.strength case Dexterity => b.dexterity case Constitution => b.constitution
    case Intelligence => b.intelligence case Wisdom => b.wisdom case Charisma => b.charisma
  }

  lemma GetValidity(b: StatBlock)
    ensures Get(b, Thac0) == b.thac0 && Get(b, Ac) == b.ac && Get(b, Hp) == b.hp
  {
  }

  /** `setattr(block, name, value)`. */
  function Set(b: StatBlock, f: Field, v: string): (r: StatBlock)
    ensures Get(r, f) == v
    ensures forall g :: g != f ==> Get(r, g) == Get(b, g)
    ensures r.name == b.name && r.raceClass == b.raceClass && r.equipment == b.equipment
      && r.spells == b.spells && r.rawText == b.rawText && r.sourceLocation == b.sourceLocation
  {
    match f
    case Ac => b.(ac := v) case Thac0 => b.(thac0 := v) case Hp => b.(hp := v)
    case Mv => b.(mv := v) case Attacks => b.(attacks := v) case Damage => b.(damage := v)
    case SpecialAttacks => b.(specialAttacks := v) case SpecialDefenses => b.(specialDefenses := v)
    case MagicResistance => b.(magicResistance := v)
    case Size => b.(size := v) case Morale => b.(morale := v) case Xp => b.(xp := v)
    case Alignment => b.(alignment := v)
    case Strength => b.(strength := v) case Dexterity => b.(dexterity := v)
    case Constitution => b.(constitution := v) case Intelligence => b.(intelligence := v)
    case Wisdom => b.(wisdom := v) case Charisma => b.(charisma := v)
  }

  /**
   * A pattern of the extractor: the `rank`-th regular expression (counting
   * from 0) listed for `field`. Matching is not modelled, so a pattern is
   * known by its place in the table; `Regex` gives its text.
   */
  datatype Pattern = Pattern(field: Field, rank: nat)

  /** `re.search(Regex(p), text, re.IGNORECASE)`, reduced to the text of group 1. */
  type Search = (string, Pattern) -> Option<string>

  /** THAC0 and hit points have three patterns, every other field two. */
  function PatternCount(f: Field): nat
  {
    if f == Thac0 || f == Hp then 3 else 2
  }

  /** The patterns tried for `f`, in the order of the field's list: every one has a text, and the list stops where the texts do. */
  function PatternsOf(f: Field): (ps: seq<Pattern>)
    ensures |ps| == PatternCount(f)
    ensures forall k :: 0 <= k < |ps| ==> ps[k] == Pattern(f, k) && Regex(ps[k]) != ""
    ensures Regex(Pattern(f, |ps|)) == ""
  {
    if PatternCount(f) == 3 then [Pattern(f, 0), Pattern(f, 1), Pattern(f, 2)]
    else [Pattern(f, 0), Pattern(f, 1)]
  }

  /** The regular expressions of each field, in the order they are tried. */
  const AcPatterns: seq<string> := ["AC[:\\s]+(-?\\d+(?:/[-\\d]+)?)", "Armor Class[:\\s]+(-?\\d+)"]
  const Thac0Patterns: seq<string> := ["THAC0[:\\s]+(\\d+)", "THACO[:\\s]+(\\d+)", "To Hit[:\\s]+(\\d+)"]
  const HpPatterns: seq<string> := ["hp[:\\s]+(\\d+(?:\\s*\\([^)]+\\))?)", "Hit Points?[:\\s]+(\\d+)", "HP[:\\s]+(\\d+)"]
  const MvPatterns: seq<string> := ["MV[:\\s]+([\\d,\\s\\w()]+?)(?:\\s*[;#]|\\s*$)", "Movement[:\\s]+([\\d\\'\"]+)"]
  const AttacksPatterns: seq<string> := ["#AT[:\\s]+([\\d/]+)", "Attacks?[:\\s]+([\\d/]+)"]
  const DamagePatterns: seq<string> := ["Dmg[:\\s]+([^;]+?)(?:;|\\s*SA|\\s*SD|\\s*MR|\\s*$)", "Damage[:\\s]+([^;]+)"]
  const SpecialAttacksPatterns: seq<string> := ["SA[:\\s]+([^;]+?)(?:;|\\s*SD|\\s*MR|\\s*$)", "Special Attacks?[:\\s]+([^;]+)"]
  const SpecialDefensesPatterns: seq<string> := ["SD[:\\s]+([^;]+?)(?:;|\\s*MR|\\s*$)", "Special Defenses?[:\\s]+([^;]+)"]
  const MagicResistancePatterns: seq<string> := ["MR[:\\s]+(\\d+%?)", "Magic Resistance[:\\s]+(\\d+%?)"]
  const SizePatterns: seq<string> := ["SZ[:\\s]+([TFSMHLG](?:\\s*\\([^)]+\\))?)", "Size[:\\s]+(\\w+)"]
  const MoralePatterns: seq<string> := ["ML[:\\s]+(\\d+(?:-\\d+)?(?:\\s*\\([^)]+\\))?)", "Morale[:\\s]+(\\d+)"]
  const XpPatterns: seq<string> := ["XP[:\\s]+([\\d,]+)", "Experience[:\\s]+([\\d,]+)"]
  const AlignmentPatterns: seq<string> := ["\\b(LG|NG|CG|LN|N|CN|LE|NE|CE)\\b", "AL[:\\s]+(\\w+)"]
  const StrengthPatterns: seq<string> := ["\\bStr\\s+(\\d+(?:/\\d+)?)", "Strength[:\\s]+(\\d+)"]
  const DexterityPatterns: seq<string> := ["\\bDex\\s+(\\d+)", "Dexterity[:\\s]+(\\d+)"]
  const ConstitutionPatterns: seq<string> := ["\\bCon\\s+(\\d+)", "Constitution[:\\s]+(\\d+)"]
  const IntelligencePatterns: seq<string> := ["\\bInt\\s+(\\d+)", "Intelligence[:\\s]+(\\d+)"]
  const WisdomPatterns: seq<string> := ["\\bWis\\s+(\\d+)", "Wisdom[:\\s]+(\\d+)"]
  const CharismaPatterns: seq<string> := ["\\bCha\\s+(\\d+)", "Charisma[:\\s]+(\\d+)"]

  /** The regular expressions listed for `f`, one per pattern, none of them empty. */
  function Texts(f: Field): (ts: seq<string>)
    ensures |ts| == PatternCount(f)
    ensures forall k :: 0 <= k < |ts| ==> |ts[k]| > 0
  {
    match f
    case Ac => AcPatterns
    case Thac0 => Thac0Patterns
    case Hp => HpPatterns
    case Mv => MvPatterns
    case Attacks => AttacksPatterns
    case Damage => DamagePatterns
    case SpecialAttacks => SpecialAttacksPatterns
    case SpecialDefenses => SpecialDefensesPatterns
    case MagicResistance => MagicResistancePatterns
    case Size => SizePatterns
    case Morale => MoralePatterns
    case Xp => XpPatterns
    case Alignment => AlignmentPatterns
    case Strength => StrengthPatterns
    case Dexterity => DexterityPatterns
    case Constitution => ConstitutionPatterns
    case Intelligence => IntelligencePatterns
    case Wisdom => WisdomPatterns
    case Charisma => CharismaPatterns
  }

  /** The text of each pattern; a rank past the end of the field's list has none. */
  function Regex(p: Pattern): (r: string)
    ensures r != "" <==> p.rank < PatternCount(p.field)
  {
    var texts := Texts(p.field);
    if p.rank < |texts| then texts[p.rank] else ""
  }

  /** What the search finds for field `f` in `text`. */
  function Found(text: string, f: Field, search: Search): string
  {
    ParseStatValue(text, PatternsOf(f), search)
  }

  /**
   * `extract_stat_block`: fills every field with its first-match value and
   * keeps the block only when it has a THAC0, an AC or a hit-point value.
   */
  method ExtractStatBlock(text: string, search: Search) returns (r: Option<StatBlock>)
    ensures r.None? <==>
      Found(text, Thac0, search) == "" && Found(text, Ac, search) == "" && Found(text, Hp, search) == ""
    ensures r.Some? ==> forall f :: Get(r.value, f) == Found(text, f, search)
    ensures r.Some? ==> (r.value.rawText == text && r.value.name == "" && r.value.raceClass == ""
      && r.value.equipment == [] && r.value.spells == [] && r.value.sourceLocation == "")
  {
    var block := EmptyBlock.(rawText := text);
    block := FillFields(block, text, search, 0, StatFieldCount);
    block := FillFields(block, text, search, StatFieldCount, FieldCount);
    GetValidity(block);
    if !(block.thac0 != "" || block.ac != "" || block.hp != "") {
      return None;
    }
    return Some(block);
  }

  /**
   * One of the two `for stat_name, stat_patterns in ...: setattr(...)`
   * loops: sets the fields at positions `lo` to `hi - 1` to what the search
   * finds for them, leaving every other field as it was.
   */
  method FillFields(block: StatBlock, text: string, search: Search, lo: nat, hi: nat)
    returns (r: StatBlock)
    requires lo <= hi <= FieldCount
    requires forall f :: FieldIndex(f) < lo ==> Get(block, f) == Found(text, f, search)
    ensures forall f :: FieldIndex(f) < hi ==> Get(r, f) == Found(text, f, search)
    ensures forall f :: FieldIndex(f) >= hi ==> Get(r, f) == Get(block, f)
    ensures r.name == block.name && r.raceClass == block.raceClass && r.equipment == block.equipment
      && r.spells == block.spells && r.rawText == block.rawText && r.sourceLocation == block.sourceLocation
  {
    r := block;
    for i := lo to hi
      invariant forall f :: FieldIndex(f) < i ==> Get(r, f) == Found(text, f, search)
      invariant forall f :: FieldIndex(f) >= i ==> Get(r, f) == Get(block, f)
      invariant r.name == block.name && r.raceClass == block.raceClass && r.equipment == block.equipment
        && r.spells == block.spells && r.rawText == block.rawText && r.sourceLocation == block.sourceLocation
    {
      var f := FieldAt(i);
      var value := ParseStatValue(text, PatternsOf(f), search);
      r := Set(r, f, value);
      forall g | FieldIndex(g) == i
        ensures g == f
      {
        FieldAtIndex(g);
      }
    }
  }

  // ---------------------------------------------------------------------------
  // Output file names (`process_file`)
  // ---------------------------------------------------------------------------

  /** The characters `re.sub(r'[^\w\s-]', '', name)` keeps. */
  predicate IsNameChar(c: char) { IsWordChar(c) || IsSpace(c) || c == '-' }

  function KeepNameChars(s: string): (r: string)
    ensures |r| <= |s|
    ensures forall c :: c in r <==> c in s && IsNameChar(c)
  {
    if s == [] then []
    else if IsNameChar(s[0]) then [s[0]] + KeepNameChars(s[1..])
    else KeepNameChars(s[1..])
  }

  /** The visible characters of a name: the ones that survive both the filter and the strip. */
  predicate IsVisibleNameChar(c: char) { IsWordChar(c) || c == '-' }

  /** `re.sub(r'[^\w\s-]', '', name).strip().replace(' ', '_')`. */
  function Sanitize(name: string): string
  {
    ReplaceChar(Strip(KeepNameChars(name)), ' ', '_')
  }

  /**
   * The file name (without `.md`) of the block read from the `i`-th region
   * (counting from 0): the sanitised name, or `statblock_<i+1>` when nothing
   * is left of it.
   */
  function SafeName(name: string, i: nat): (r: string)
    ensures r != []
  {
    var cleaned := Sanitize(name);
    if cleaned == [] then FallbackName(i) else cleaned
  }

  /** `statblock_<i+1>`. */
  function FallbackName(i: nat): string
  {
    "statblock_" + NatToString(i + 1)
  }

  /** The kept characters, position by position, are characters of the name that the filter keeps. */
  lemma KeptChars(name: string)
    ensures forall k :: 0 <= k < |KeepNameChars(name)| ==>
      IsNameChar(KeepNameChars(name)[k]) && KeepNameChars(name)[k] in name
  {
    var kept := KeepNameChars(name);
    forall k | 0 <= k < |kept|
      ensures IsNameChar(kept[k]) && kept[k] in name
    {
      assert kept[k] in kept;
    }
  }

  /**
   * Each character of the sanitised name is a word character, `-` or
   * whitespace other than a space, and is a character of the name or an
   * underscore that replaced a space; it is no longer than the name.
   */
  lemma SanitizeChars(name: string)
    ensures var r := Sanitize(name);
      && |r| <= |name| && ' ' !in r
      && forall k :: 0 <= k < |r| ==> IsNameChar(r[k]) && (r[k] == '_' || r[k] in name)
  {
    var kept := KeepNameChars(name);
    KeptChars(name);
    var stripped := Strip(kept);
    var j :| StrippedAt(kept, stripped, j);
    var r := Sanitize(name);
    assert r == ReplaceChar(stripped, ' ', '_');
    forall k | 0 <= k < |r|
      ensures r[k] != ' ' && IsNameChar(r[k]) && (r[k] == '_' || r[k] in name)
    {
      assert stripped[k] == kept[j + k];
    }
  }

  /** The sanitised name neither starts nor ends with whitespace. */
  lemma SanitizeEnds(name: string)
    ensures var r := Sanitize(name);
      r != [] ==> !IsSpace(r[0]) && !IsSpace(r[|r| - 1])
  {
    var stripped := Strip(KeepNameChars(name));
    var r := Sanitize(name);
    if r != [] {
      assert r[0] == (if stripped[0] == ' ' then '_' else stripped[0]);
      assert r[|r| - 1] == (if stripped[|r| - 1] == ' ' then '_' else stripped[|r| - 1]);
    }
  }

  /** Nothing is left of the name exactly when it has no word character and no `-`. */
  lemma SanitizeEmpty(name: string)
    ensures Sanitize(name) == [] <==> forall k :: 0 <= k < |name| ==> !IsVisibleNameChar(name[k])
  {
    var kept := KeepNameChars(name);
    KeptChars(name);
    if forall k :: 0 <= k < |name| ==> !IsVisibleNameChar(name[k]) {
      forall k | 0 <= k < |kept|
        ensures IsSpace(kept[k])
      {
        var c := kept[k];
        assert c in name;
        var m :| 0 <= m < |name| && name[m] == c;
      }
      assert Strip(kept) == [];
    } else {
      var k :| 0 <= k < |name| && IsVisibleNameChar(name[k]);
      assert name[k] in kept;
      var m :| 0 <= m < |kept| && kept[m] == name[k];
      assert !IsSpace(kept[m]);
      assert Strip(kept) != [];
    }
  }

  /**
   * The file name is never empty, has no spaces and no other character than
   * a word character, `-` or whitespace, and does not start or end with
   * whitespace; it is `statblock_<i+1>` whenever the name has no word
   * character and no `-`.
   */
  lemma SafeNameShape(name: string, i: nat)
    ensures var r := SafeName(name, i);
      && r != [] && ' ' !in r
      && (forall k :: 0 <= k < |r| ==> IsNameChar(r[k]))
      && !IsSpace(r[0]) && !IsSpace(r[|r| - 1])
    ensures (forall k :: 0 <= k < |name| ==> !IsVisibleNameChar(name[k])) ==>
      SafeName(name, i) == FallbackName(i)
  {
    SanitizeChars(name);
    SanitizeEnds(name);
    SanitizeEmpty(name);
    if Sanitize(name) == [] {
      var digits := NatToString(i + 1);
      var r := FallbackName(i);
      forall k | 0 <= k < |r|
        ensures IsNameChar(r[k]) && r[k] != ' '
      {
        if k >= 10 {
          assert r[k] == digits[k - 10];
        }
      }
    }
  }

  /**
   * A non-empty string of name characters without spaces that neither starts
   * nor ends with whitespace sanitises to itself.
   */
  lemma SanitizeFixed(r: string)
    requires r != [] && ' ' !in r
    requires forall k :: 0 <= k < |r| ==> IsNameChar(r[k])
    requires !IsSpace(r[0]) && !IsSpace(r[|r| - 1])
    ensures Sanitize(r) == r
  {
    KeepAll(r);
    StripUnchanged(r);
    ReplaceAbsent(r, ' ', '_');
  }

  /** A sanitised name is its own sanitised name. */
  lemma SafeNameIdempotent(name: string, i: nat, j: nat)
    ensures SafeName(SafeName(name, i), j) == SafeName(name, i)
  {
    SafeNameShape(name, i);
    SanitizeFixed(SafeName(name, i));
  }

  /** A name made only of word characters and `-` is used as it is. */
  lemma PlainNameKept(name: string, i: nat)
    requires name != []
    requires forall k :: 0 <= k < |name| ==> IsVisibleNameChar(name[k])
    ensures SafeName(name, i) == name
  {
    assert ' ' !in name by {
      forall k | 0 <= k < |name| ensures name[k] != ' ' { assert IsVisibleNameChar(name[k]); }
    }
    SanitizeFixed(name);
  }

  lemma {:induction false} KeepAll(s: string)
    requires forall k :: 0 <= k < |s| ==> IsNameChar(s[k])
    ensures KeepNameChars(s) == s
  {
    if s != [] {
      KeepAll(s[1..]);
    }
  }
}
