/** Skill identifiers (src-tauri/src/skills.rs, skill_id and validate_skill_id). */
module SkillIds {
  import opened Sequences
  import opened Whitespace

  predicate IsLower(c: char) { 'a' <= c <= 'z' }

  predicate IsUpper(c: char) { 'A' <= c <= 'Z' }

  predicate IsDigit(c: char) { '0' <= c <= '9' }

  predicate IsAlphanumeric(c: char) { IsLower(c) || IsUpper(c) || IsDigit(c) }

  function Lowered(c: char): char {
    if IsUpper(c) then (c as int - 'A' as int + 'a' as int) as char else c
  }

  /** Not empty, at most 80 characters, and only lower-case letters, digits and dashes. */
  predicate IsValid(id: string) {
    0 < |id| <= 80 && forall c <- id :: IsLower(c) || IsDigit(c) || c == '-'
  }

  predicate IsSeparator(c: char) { c == '-' || c == '_' || c == ' ' }

  // ----- the identifier as it grows

  /** The identifier with one more character of the name. */
  function Push(id: string, c: char): string {
    if IsAlphanumeric(c) then id + [Lowered(c)]
    else if IsSeparator(c) && id != "" && id[|id| - 1] != '-' then id + "-"
    else id
  }

  function Pushed(id: string, name: string): string
    decreases |name|
  {
    if name == "" then id else Pushed(Push(id, name[0]), name[1..])
  }

  function IsDash(): char -> bool {
    c => c == '-'
  }

  function Undashed(id: string): string {
    Trim(IsDash(), id)
  }

  function Take(id: string, n: nat): string {
    if |id| <= n then id else id[..n]
  }

  /** The SHA-256 digest of a text, in hexadecimal. */
  ghost predicate IsDigest(digest: string -> string) {
    forall name: string :: |digest(name)| == 64 && forall c <- digest(name) :: IsDigit(c) || 'a' <= c <= 'f'
  }

  function IdOf(digest: string -> string, name: string): string {
    var id := Undashed(Pushed("", Trim(IsUnicodeSpace, name)));
    if id == "" then "skill-" + Take(digest(name), 12) else Undashed(Take(id, 64))
  }

  /** The loop over the name's characters, with its flag for a dash just written. */
  method SkillId(digest: string -> string, name: string) returns (id: string)
    ensures id == IdOf(digest, name)
  {
    var trimmed := Trim(IsUnicodeSpace, name);
    var previousDash, i := false, 0;
    id := "";
    while i < |trimmed|
      invariant 0 <= i <= |trimmed|
      invariant id != "" ==> previousDash == (id[|id| - 1] == '-')
      invariant Pushed(id, trimmed[i..]) == Pushed("", trimmed)
    {
      if IsAlphanumeric(trimmed[i]) {
        id := id + [Lowered(trimmed[i])];
        previousDash := false;
      } else if IsSeparator(trimmed[i]) && id != "" && !previousDash {
        id := id + "-";
        previousDash := true;
      }
      i := i + 1;
    }
    id := Undashed(id);
    if id == "" {
      return "skill-" + Take(digest(name), 12);
    }
    id := Undashed(Take(id, 64));
  }

  method ValidateSkillId(id: string) returns (ok: bool)
    ensures ok == IsValid(id)
  {
    ok := 0 < |id| <= 80;
    var i := 0;
    while ok && i < |id|
      invariant 0 <= i <= |id|
      invariant ok ==> 0 < |id| <= 80 && forall c <- id[..i] :: IsLower(c) || IsDigit(c) || c == '-'
      invariant !ok ==> !IsValid(id)
    {
      assert id[i] in id;
      assert id[..i + 1] == id[..i] + [id[i]];
      ok := IsLower(id[i]) || IsDigit(id[i]) || id[i] == '-';
      i := i + 1;
    }
    if ok {
      assert id[..|id|] == id;
    }
  }

  // ----- the shape of an identifier

  /** Lower-case letters, digits and single dashes, and no dash in front. */
  predicate IsSlug(id: string) {
    && (forall k :: 0 <= k < |id| ==> IsLower(id[k]) || IsDigit(id[k]) || id[k] == '-')
    && (id != "" ==> id[0] != '-')
    && (forall k :: 0 < k < |id| ==> !(id[k - 1] == '-' && id[k] == '-'))
  }

  predicate IsCanonical(id: string) {
    IsSlug(id) && 0 < |id| <= 64 && id[|id| - 1] != '-'
  }

  lemma {:induction false} PushedIsSlug(id: string, name: string)
    requires IsSlug(id)
    ensures IsSlug(Pushed(id, name))
    decreases |name|
  {
    if name != "" {
      PushedIsSlug(Push(id, name[0]), name[1..]);
    }
  }

  /** Trimming dashes off a slug takes at most one from its end. */
  lemma UndashedSlug(id: string)
    requires IsSlug(id)
    ensures Undashed(id) == if id != "" && id[|id| - 1] == '-' then id[..|id| - 1] else id
  {
    assert Lead(IsDash(), id) == 0;
    assert id[0..] == id;
    if id != "" && id[|id| - 1] == '-' {
      assert |id| > 1;
      assert Kept(IsDash(), id[..|id| - 1]) == |id| - 1;
    }
  }

  lemma DigestIdIsCanonical(hex: string)
    requires |hex| == 64 && forall c <- hex :: IsDigit(c) || 'a' <= c <= 'f'
    ensures IsCanonical("skill-" + Take(hex, 12))
  {
    var id := "skill-" + Take(hex, 12);
    forall k | 0 <= k < |id|
      ensures IsLower(id[k]) || (IsDigit(id[k]) && k > 5) || (id[k] == '-' && k == 5)
    {
      if k > 5 {
        assert id[k] == hex[k - 6] && hex[k - 6] in hex;
      }
    }
  }

  lemma CutSlugIsCanonical(id: string)
    requires IsSlug(id) && id != ""
    ensures IsCanonical(Undashed(Take(id, 64)))
  {
    assert IsSlug(Take(id, 64));
    UndashedSlug(Take(id, 64));
  }

  /** Every identifier is canonical: lower-case letters, digits and single inner dashes, at most 64 characters. */
  lemma IdIsCanonical(digest: string -> string, name: string)
    requires IsDigest(digest)
    ensures IsCanonical(IdOf(digest, name))
  {
    var pushed := Pushed("", Trim(IsUnicodeSpace, name));
    PushedIsSlug("", Trim(IsUnicodeSpace, name));
    UndashedSlug(pushed);
    if Undashed(pushed) == "" {
      DigestIdIsCanonical(digest(name));
    } else {
      CutSlugIsCanonical(Undashed(pushed));
    }
  }

  /** No name makes an identifier that validation refuses, or that hides its directory behind a dot. */
  lemma IdIsValid(digest: string -> string, name: string)
    requires IsDigest(digest)
    ensures IsValid(IdOf(digest, name)) && IdOf(digest, name)[0] != '.'
  {
    IdIsCanonical(digest, name);
  }

  lemma {:induction false} PushedSlug(id: string, name: string)
    requires IsSlug(id + name)
    ensures Pushed(id, name) == id + name
    decreases |name|
  {
    if name == "" {
      assert id + name == id;
    } else {
      assert (id + name)[|id|] == name[0];
      if id != "" {
        assert (id + name)[|id| - 1] == id[|id| - 1];
      }
      assert Push(id, name[0]) == id + [name[0]];
      assert id + [name[0]] + name[1..] == id + name;
      PushedSlug(id + [name[0]], name[1..]);
    }
  }

  lemma SlugOfCanonical(id: string)
    requires IsCanonical(id)
    ensures Pushed("", id) == id && Undashed(id) == id
  {
    assert "" + id == id;
    PushedSlug("", id);
    UndashedSlug(id);
  }

  lemma IdFromSlug(digest: string -> string, name: string, slug: string)
    requires slug != "" && Undashed(Pushed("", Trim(IsUnicodeSpace, name))) == slug
    ensures IdOf(digest, name) == Undashed(Take(slug, 64))
  {
  }

  lemma IdOfCanonical(digest: string -> string, id: string)
    requires IsCanonical(id)
    ensures IdOf(digest, id) == id
  {
    TrimIsIdentity(IsUnicodeSpace, id);
    SlugOfCanonical(id);
    IdFromSlug(digest, id, id);
  }

  /** The identifier of an identifier is itself. */
  lemma IdIsIdempotent(digest: string -> string, name: string)
    requires IsDigest(digest)
    ensures IdOf(digest, IdOf(digest, name)) == IdOf(digest, name)
  {
    IdIsCanonical(digest, name);
    IdOfCanonical(digest, IdOf(digest, name));
  }

  // ----- what an identifier keeps of the name

  /** The letters and digits in order, letters in lower case. */
  function Letters(name: string): string {
    if name == "" then ""
    else (if IsAlphanumeric(name[0]) then [Lowered(name[0])] else "") + Letters(name[1..])
  }

  lemma {:induction false} LettersConcat(a: string, b: string)
    ensures Letters(a + b) == Letters(a) + Letters(b)
  {
    if a == "" {
      assert a + b == b;
    } else {
      var first := if IsAlphanumeric(a[0]) then [Lowered(a[0])] else "";
      assert (a + b)[1..] == a[1..] + b;
      LettersConcat(a[1..], b);
      Regroup(first, Letters(a[1..]), Letters(b));
    }
  }

  lemma PushKeepsLetters(id: string, c: char)
    ensures Letters(Push(id, c)) == Letters(id) + (if IsAlphanumeric(c) then [Lowered(c)] else "")
  {
    LettersConcat(id, [Lowered(c)]);
    LettersConcat(id, "-");
  }

  /** Before it is cut at 64 characters, an identifier keeps every letter and digit of the name. */
  lemma {:induction false} PushedKeepsLetters(id: string, name: string)
    ensures Letters(Pushed(id, name)) == Letters(id) + Letters(name)
    decreases |name|
  {
    if name == "" {
      assert Letters(id) + "" == Letters(id);
    } else {
      PushedKeepsLetters(Push(id, name[0]), name[1..]);
      PushKeepsLetters(id, name[0]);
      Regroup(Letters(id), if IsAlphanumeric(name[0]) then [Lowered(name[0])] else "", Letters(name[1..]));
    }
  }

  // ----- how an identifier is made, character by character

  /** A letter or digit is kept, letters in lower case; a run of separators inside becomes one dash; nothing else. */
  lemma PushIs(id: string, c: char)
    ensures '0' <= c <= '9' || 'a' <= c <= 'z' ==> Push(id, c) == id + [c]
    ensures 'A' <= c <= 'Z' ==> Push(id, c) == id + [(c as int + 32) as char]
    ensures (c == ' ' || c == '_' || c == '-') && id != "" && id[|id| - 1] != '-' ==> Push(id, c) == id + ['-']
    ensures (c == ' ' || c == '_' || c == '-') && (id == "" || id[|id| - 1] == '-') ==> Push(id, c) == id
    ensures !('0' <= c <= '9') && !('a' <= c <= 'z') && !('A' <= c <= 'Z') && c != ' ' && c != '_' && c != '-' ==>
              Push(id, c) == id
  {
  }

  predicate HoldsLetter(name: string) {
    exists k :: 0 <= k < |name| && ('0' <= name[k] <= '9' || 'a' <= name[k] <= 'z' || 'A' <= name[k] <= 'Z')
  }

  lemma {:induction false} PushedNothing(name: string)
    requires !HoldsLetter(name)
    ensures Pushed("", name) == ""
  {
    if name != "" {
      PushIs("", name[0]);
      assert forall k :: 0 <= k < |name[1..]| ==> name[1..][k] == name[k + 1];
      PushedNothing(name[1..]);
    }
  }

  lemma {:induction false} PushedGrows(id: string, name: string)
    ensures id <= Pushed(id, name)
    decreases |name|
  {
    if name != "" {
      PushedGrows(Push(id, name[0]), name[1..]);
    }
  }

  lemma {:induction false} PushedSomething(id: string, name: string)
    requires IsSlug(id) && HoldsLetter(name)
    ensures Undashed(Pushed(id, name)) != ""
    decreases |name|
  {
    var next := Push(id, name[0]);
    PushedIsSlug(id, name);
    UndashedSlug(Pushed(id, name));
    if IsAlphanumeric(name[0]) {
      PushedGrows(next, name[1..]);
      assert next[|id|] != '-';
      assert Pushed(id, name)[|id|] == next[|id|];
    } else {
      assert HoldsLetter(name[1..]) by {
        var k :| 0 <= k < |name| && IsAlphanumeric(name[k]);
        assert name[1..][k - 1] == name[k];
      }
      PushedIsSlug(id, [name[0]]);
      assert [name[0]][1..] == "";
      assert Pushed(id, [name[0]]) == Pushed(next, "");
      PushedSomething(next, name[1..]);
    }
  }

  lemma CutOfSlug(pushed: string)
    requires IsSlug(pushed)
    ensures var slug := Undashed(pushed);
            Undashed(Take(slug, 64)) <= slug && (|slug| <= 64 ==> Undashed(Take(slug, 64)) == slug)
  {
    UndashedSlug(pushed);
    UndashedSlug(Take(Undashed(pushed), 64));
  }

  /** A name without letters and digits gets twelve digits of its digest; any other as much of its slug as fits. */
  lemma IdIs(digest: string -> string, name: string)
    requires IsDigest(digest)
    ensures var trimmed := Trim(IsUnicodeSpace, name);
            var slug := Undashed(Pushed("", trimmed));
            if HoldsLetter(trimmed)
            then IdOf(digest, name) <= slug && (|slug| <= 64 ==> IdOf(digest, name) == slug)
            else IdOf(digest, name) == "skill-" + digest(name)[..12]
  {
    var trimmed := Trim(IsUnicodeSpace, name);
    if HoldsLetter(trimmed) {
      PushedSomething("", trimmed);
      PushedIsSlug("", trimmed);
      CutOfSlug(Pushed("", trimmed));
      IdFromSlug(digest, name, Undashed(Pushed("", trimmed)));
    } else {
      PushedNothing(trimmed);
    }
  }
}
