/**
 * The icon a category card shows (`getCategoryIcon`, src/pages/Categories.js): the
 * name is lower-cased once and matched against a fixed list of keywords, the first
 * one contained in it deciding the icon.
 *
 * Lower-casing covers A-Z and the upper-case letters of Latin-1 (À to Þ except ×),
 * which is what Spanish category names use.
 */
module Categories {

  function LowerChar(c: char): (r: char)
    ensures 'A' <= c <= 'Z' ==> r as int == c as int + 32
    ensures 'À' <= c <= 'Þ' && c != '×' ==> r as int == c as int + 32
    ensures !('A' <= c <= 'Z') && !('À' <= c <= 'Þ' && c != '×') ==> r == c
  {
    if 'A' <= c <= 'Z' || ('À' <= c <= 'Þ' && c != '×') then (c as int + 32) as char else c
  }

  /** `toLowerCase()` on the characters modelled. */
  function ToLower(s: string): (r: string)
    ensures |r| == |s|
    ensures forall i :: 0 <= i < |s| ==> r[i] == LowerChar(s[i])
  {
    seq(|s|, i requires 0 <= i < |s| => LowerChar(s[i]))
  }

  /** `k` occurs in `s` starting at position `i`. */
  predicate OccursAt(s: string, k: string, i: int) {
    0 <= i && i + |k| <= |s| && s[i..i + |k|] == k
  }

  /** `s.includes(k)`. */
  predicate Contains(s: string, k: string) {
    exists i | 0 <= i <= |s| - |k| :: OccursAt(s, k, i)
  }

  /** A keyword whose first letter does not occur in the name is not contained in it. */
  lemma FirstLetterAbsent(s: string, k: string)
    requires |k| > 0 && k[0] !in s
    ensures !Contains(s, k)
  {
    if i :| OccursAt(s, k, i) {
      assert s[i..i + |k|][0] == k[0];
      assert s[i] in s;
    }
  }

  const Strategy: string := "\U{265F}\U{FE0F}"
  const RolePlay: string := "\U{1F3B2}"
  const Cooperative: string := "\U{1F91D}"
  const Party: string := "\U{1F389}"
  const Kids: string := "\U{1F476}"
  const Adventure: string := "\U{1F5FA}\U{FE0F}"
  const Puzzle: string := "\U{1F9E9}"
  const Cards: string := "\U{1F0CF}"
  const Fallback: string := "\U{1F3AE}"

  const Icons: set<string> := {Strategy, RolePlay, Cooperative, Party, Kids, Adventure, Puzzle, Cards, Fallback}

  /** Whether the lower-cased name contains the keyword. */
  predicate Mentions(name: string, keyword: string) {
    Contains(ToLower(name), keyword)
  }

  /** The keyword tests before the last icon, in the order the source tries them. */
  predicate AnyKeyword(name: string) {
    || Mentions(name, "estrategia") || Mentions(name, "rol") || Mentions(name, "cooperativ")
    || Mentions(name, "party") || Mentions(name, "fiesta") || Mentions(name, "infantil")
    || Mentions(name, "niños") || Mentions(name, "aventura") || Mentions(name, "puzzle")
    || Mentions(name, "cartas")
  }

  function CategoryIcon(categoryName: string): (r: string)
    ensures r in Icons
    ensures r == Strategy <==> Mentions(categoryName, "estrategia")
    ensures r == RolePlay <==> !Mentions(categoryName, "estrategia") && Mentions(categoryName, "rol")
    ensures r == Cooperative <==>
      && !Mentions(categoryName, "estrategia") && !Mentions(categoryName, "rol")
      && Mentions(categoryName, "cooperativ")
    ensures r == Party <==>
      && !Mentions(categoryName, "estrategia") && !Mentions(categoryName, "rol") && !Mentions(categoryName, "cooperativ")
      && (Mentions(categoryName, "party") || Mentions(categoryName, "fiesta"))
    ensures r == Kids <==>
      && !Mentions(categoryName, "estrategia") && !Mentions(categoryName, "rol") && !Mentions(categoryName, "cooperativ")
      && !Mentions(categoryName, "party") && !Mentions(categoryName, "fiesta")
      && (Mentions(categoryName, "infantil") || Mentions(categoryName, "niños"))
    ensures r == Adventure <==>
      && !Mentions(categoryName, "estrategia") && !Mentions(categoryName, "rol") && !Mentions(categoryName, "cooperativ")
      && !Mentions(categoryName, "party") && !Mentions(categoryName, "fiesta")
      && !Mentions(categoryName, "infantil") && !Mentions(categoryName, "niños")
      && Mentions(categoryName, "aventura")
    ensures r == Puzzle <==>
      && !Mentions(categoryName, "estrategia") && !Mentions(categoryName, "rol") && !Mentions(categoryName, "cooperativ")
      && !Mentions(categoryName, "party") && !Mentions(categoryName, "fiesta")
      && !Mentions(categoryName, "infantil") && !Mentions(categoryName, "niños")
      && !Mentions(categoryName, "aventura") && Mentions(categoryName, "puzzle")
    ensures r == Cards <==>
      && !Mentions(categoryName, "estrategia") && !Mentions(categoryName, "rol") && !Mentions(categoryName, "cooperativ")
      && !Mentions(categoryName, "party") && !Mentions(categoryName, "fiesta")
      && !Mentions(categoryName, "infantil") && !Mentions(categoryName, "niños")
      && !Mentions(categoryName, "aventura") && !Mentions(categoryName, "puzzle")
      && Mentions(categoryName, "cartas")
    ensures r == Fallback <==> !AnyKeyword(categoryName)
  {
    var name := ToLower(categoryName);
    if Contains(name, "estrategia") then Strategy
    else if Contains(name, "rol") then RolePlay
    else if Contains(name, "cooperativ") then Cooperative
    else if Contains(name, "party") || Contains(name, "fiesta") then Party
    else if Contains(name, "infantil") || Contains(name, "niños") then Kids
    else if Contains(name, "aventura") then Adventure
    else if Contains(name, "puzzle") then Puzzle
    else if Contains(name, "cartas") then Cards
    else Fallback
  }

  lemma ToLowerIdempotent(s: string)
    ensures ToLower(ToLower(s)) == ToLower(s)
  {
  }

  /** Names that differ only in letter case get the same icon; in particular lower-casing first changes nothing. */
  lemma CaseInsensitive(a: string, b: string)
    requires ToLower(a) == ToLower(b)
    ensures CategoryIcon(a) == CategoryIcon(b)
    ensures CategoryIcon(ToLower(a)) == CategoryIcon(a)
  {
    ToLowerIdempotent(a);
  }

  /** A lower-case keyword found in the name, in any letter case, is found in its lower-cased form. */
  lemma ContainsSurvivesLowering(s: string, k: string)
    requires ToLower(k) == k && Contains(s, k)
    ensures Contains(ToLower(s), k)
  {
    var i :| 0 <= i <= |s| - |k| && OccursAt(s, k, i);
    var t := ToLower(s);
    forall j | 0 <= j < |k| ensures t[i..i + |k|][j] == k[j] {
      assert s[i + j] == s[i..i + |k|][j] == k[j];
      assert ToLower(k)[j] == LowerChar(k[j]);
    }
    assert t[i..i + |k|] == k;
    assert OccursAt(t, k, i);
  }

  /** The first keyword wins: a name with both "estrategia" and "rol" is a strategy game. */
  lemma StrategyBeatsRole()
    ensures CategoryIcon("Estrategia y Rol") == Strategy
  {
    assert OccursAt(ToLower("Estrategia y Rol"), "estrategia", 0);
  }

  /** Substring matching: "Control" contains "rol" and so gets the role-playing icon. */
  lemma ControlIsRolePlay()
    ensures CategoryIcon("Control") == RolePlay
  {
    assert ToLower("Control")[4..7] == "rol";
    assert OccursAt(ToLower("Control"), "rol", 4);
  }

  /** The upper-case Ñ is lowered too, so "NIÑOS" is a children's category. */
  lemma UpperCaseKids()
    ensures CategoryIcon("NIÑOS") == Kids
  {
    var t := ToLower("NIÑOS");
    assert t == "niños";
    assert OccursAt(t, "niños", 0);
    FirstLetterAbsent(t, "estrategia");
    FirstLetterAbsent(t, "rol");
    FirstLetterAbsent(t, "cooperativ");
    FirstLetterAbsent(t, "party");
    FirstLetterAbsent(t, "fiesta");
  }
}
