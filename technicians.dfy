/** The appointment's assigned-technicians card: initials from a name
    (split on single spaces, empty parts dropped), the rows with their
    separators, and the guard that hides the card. */
module Technicians {
  import opened Common
  import opened AppointmentData

  // ---------------------------------------------------------------------
  // String.prototype.split(' ')

  /** The position of the first `c` in `s`. */
  function IndexOf(s: string, c: char): (k: nat)
    requires c in s
    ensures k < |s| && s[k] == c && c !in s[..k]
    ensures forall j :: 0 <= j < k ==> s[j] != c
  {
    if s[0] == c then 0
    else
      var k := IndexOf(s[1..], c) + 1;
      assert s[..k] == [s[0]] + s[1..][..k - 1];
      k
  }

  /** `s.split(' ')`: the pieces between single spaces, empty ones included. */
  function SplitSpaces(s: string): (parts: seq<string>)
    ensures |parts| >= 1
    ensures forall i :: 0 <= i < |parts| ==> ' ' !in parts[i]
    decreases |s|
  {
    if ' ' !in s then [s]
    else
      var k := IndexOf(s, ' ');
      [s[..k]] + SplitSpaces(s[k + 1..])
  }

  /** `parts.join(' ')`. */
  function JoinSpaces(parts: seq<string>): string
    requires |parts| >= 1
  {
    if |parts| == 1 then parts[0] else parts[0] + " " + JoinSpaces(parts[1..])
  }

  /** Joining the pieces back with spaces gives the original string. */
  lemma {:induction false} JoinSplit(s: string)
    ensures JoinSpaces(SplitSpaces(s)) == s
    decreases |s|
  {
    if ' ' in s {
      var k := IndexOf(s, ' ');
      JoinSplit(s[k + 1..]);
      assert SplitSpaces(s)[1..] == SplitSpaces(s[k + 1..]);
      assert s == s[..k] + " " + s[k + 1..];
    }
  }

  /** Splitting at the first space of `first + " " + rest` when `first` has none. */
  lemma SplitAtFirstSpace(first: string, rest: string)
    requires ' ' !in first
    ensures SplitSpaces(first + " " + rest) == [first] + SplitSpaces(rest)
  {
    var s := first + " " + rest;
    var k := |first|;
    assert forall j :: 0 <= j < k ==> s[j] == first[j];
    assert s[k] == ' ';
    assert IndexOf(s, ' ') == k;
    assert s[..k] == first;
    assert s[k + 1..] == rest;
  }

  /** Splitting a space-joined list of space-free pieces gives the pieces back. */
  lemma {:induction false} SplitJoin(parts: seq<string>)
    requires |parts| >= 1 && forall i :: 0 <= i < |parts| ==> ' ' !in parts[i]
    ensures SplitSpaces(JoinSpaces(parts)) == parts
  {
    if |parts| > 1 {
      var tail := parts[1..];
      assert forall i :: 0 <= i < |tail| ==> ' ' !in tail[i] by {
        forall i | 0 <= i < |tail| ensures ' ' !in tail[i] {
          assert tail[i] == parts[i + 1];
        }
      }
      SplitJoin(tail);
      var joined := JoinSpaces(tail);
      assert JoinSpaces(parts) == parts[0] + " " + joined;
      SplitAtFirstSpace(parts[0], joined);
      assert SplitSpaces(JoinSpaces(parts)) == [parts[0]] + tail;
      assert [parts[0]] + tail == parts;
    }
  }

  /** The pieces `filter(Boolean)` drops. */
  predicate IsEmptyWord(w: string) {
    w == ""
  }

  /** `name.split(' ').filter(Boolean)`. */
  function Words(name: string): (words: seq<string>)
    ensures forall i :: 0 <= i < |words| ==> words[i] != "" && ' ' !in words[i]
  {
    RejectMembers(SplitSpaces(name), IsEmptyWord);
    Reject(SplitSpaces(name), IsEmptyWord)
  }

  /** Every stretch of spaces in a joined name only adds empty pieces: the
      words of a space-join are its non-empty pieces, in order. */
  lemma WordsOfJoin(parts: seq<string>)
    requires |parts| >= 1 && forall i :: 0 <= i < |parts| ==> ' ' !in parts[i]
    ensures Words(JoinSpaces(parts)) == Reject(parts, IsEmptyWord)
  {
    SplitJoin(parts);
  }

  // ---------------------------------------------------------------------
  // getInitials

  /** `substring(0, n)`. */
  function Prefix(s: string, n: nat): (r: string)
    ensures r == s[..if n < |s| then n else |s|]
  {
    if n < |s| then s[..n] else s
  }

  /** The part of `getInitials` after the words are found. */
  function InitialsOfWords(words: seq<string>): (r: string)
    requires forall i :: 0 <= i < |words| ==> words[i] != ""
    ensures |r| <= 2
    ensures r == "" <==> words == []
  {
    if |words| == 0 then ""
    else if |words| == 1 then ToUpper(Prefix(words[0], 2))
    else ToUpper([words[0][0], words[|words| - 1][0]])
  }

  /** `getInitials`: at most two characters, empty exactly for a missing or
      empty name or one made only of spaces. */
  function Initials(name: Option<string>): (r: string)
    ensures |r| <= 2
    ensures r == "" <==> !Truthy(name) || Words(name.value) == []
  {
    if !Truthy(name) then "" else InitialsOfWords(Words(name.value))
  }

  /** The initials depend only on the words, also for the empty name. */
  lemma InitialsFromWords(name: string)
    ensures Initials(Some(name)) == InitialsOfWords(Words(name))
  {
    if name == "" {
      assert SplitSpaces(name) == [""];
    }
  }

  /** A name without spaces gives its first two characters, upper-cased. */
  lemma InitialsOfOneWord(w: string)
    requires w != "" && ' ' !in w
    ensures Initials(Some(w)) == ToUpper(Prefix(w, 2))
  {
    assert SplitSpaces(w) == [w];
  }

  /** Two or more words give the upper-cased first letter of the first and of
      the last word; the words in between play no part. */
  lemma InitialsManyWords(parts: seq<string>)
    requires |parts| >= 2 && forall i :: 0 <= i < |parts| ==> parts[i] != "" && ' ' !in parts[i]
    ensures Initials(Some(JoinSpaces(parts))) == ToUpper([parts[0][0], parts[|parts| - 1][0]])
  {
    SplitJoin(parts);
    RejectNothing(parts, IsEmptyWord);
    assert JoinSpaces(parts) == parts[0] + " " + JoinSpaces(parts[1..]);
  }

  /** Extra spaces anywhere in a name (before, between or after the words)
      do not change the initials: a name split at every space into the
      pieces `parts` has the initials of its non-empty pieces alone. */
  lemma InitialsIgnoreExtraSpaces(parts: seq<string>)
    requires |parts| >= 1 && forall i :: 0 <= i < |parts| ==> ' ' !in parts[i]
    ensures Initials(Some(JoinSpaces(parts))) == InitialsOfWords(Reject(parts, IsEmptyWord))
    ensures Reject(parts, IsEmptyWord) != [] ==>
              Initials(Some(JoinSpaces(parts))) == Initials(Some(JoinSpaces(Reject(parts, IsEmptyWord))))
  {
    var w := Reject(parts, IsEmptyWord);
    WordsOfJoin(parts);
    InitialsFromWords(JoinSpaces(parts));
    if w != [] {
      RejectMembers(parts, IsEmptyWord);
      forall i | 0 <= i < |w| ensures ' ' !in w[i] {
        var m :| 0 <= m < |parts| && parts[m] == w[i];
      }
      WordsOfJoin(w);
      RejectNothing(w, IsEmptyWord);
      InitialsFromWords(JoinSpaces(w));
    }
  }

  // ---------------------------------------------------------------------
  // The card

  /** The card renders only for an appointment with a non-empty technician
      list: it is hidden exactly when there is no appointment, no technician
      list, or an empty one. */
  function SectionVisible(appointment: Option<Appointment>): (visible: bool)
    ensures !visible <==>
              appointment.None? || appointment.value.technicians.None? || appointment.value.technicians.value == []
  {
    appointment.Some? && appointment.value.technicians.Some? && |appointment.value.technicians.value| > 0
  }

  datatype TechnicianRow = TechnicianRow(
    initials: string,
    name: string,
    role: Option<string>,
    assignedAt: string,
    separator: bool)

  /** One row per technician, in order; the name falls back to 'N/A', the
      role chip shows only for a truthy role, and every row but the last has
      a bottom border. */
  function TechnicianRows(techs: seq<Technician>): (rows: seq<TechnicianRow>)
    ensures |rows| == |techs|
    ensures forall i :: 0 <= i < |rows| ==>
              rows[i].initials == Initials(techs[i].staff.name) &&
              (rows[i].separator <==> i < |techs| - 1) &&
              (rows[i].role.Some? <==> Truthy(techs[i].staff.role))
    ensures forall i :: 0 <= i < |rows| ==>
              (rows[i].name == "N/A" <==> !Truthy(techs[i].staff.name) || techs[i].staff.name.value == "N/A") &&
              (Truthy(techs[i].staff.name) ==> rows[i].name == techs[i].staff.name.value)
    ensures forall i :: 0 <= i < |rows| ==>
              rows[i].assignedAt == techs[i].assignedAt &&
              (rows[i].role.Some? ==> rows[i].role == techs[i].staff.role)
  {
    seq(|techs|, i requires 0 <= i < |techs| =>
      TechnicianRow(
        Initials(techs[i].staff.name),
        OrElse(if techs[i].staff.name.Some? then techs[i].staff.name.value else "", "N/A"),
        if Truthy(techs[i].staff.role) then techs[i].staff.role else None,
        techs[i].assignedAt,
        i < |techs| - 1))
  }
}
