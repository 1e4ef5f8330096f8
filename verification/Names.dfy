/**
 Destination names of a runtime generation: how a declared destination becomes a canonical key
 (`validate_destination`, `destination_key`, `resolve_in_generation`), and the names of staging
 temporaries (`staging_temp_path`) with their recogniser (`is_staging_temporary`).
 Paths follow the Unix rules of `std::path::Path::components`.
 */
module Names {
  import opened Wrappers

  const CONFIG_FILE_NAME := "config.yaml"
  const MANIFEST_FILE_NAME := ".runtime-manifest.json"
  const STAGING_TEMP_INFIX := ".staging-"

  datatype NameError = NotRelative | ReservedForTemporaries | EmptyDestination | OwnedByGeneration

  datatype Component = RootDir | CurDir | ParentDir | Normal(name: string)

  /* ---------- splitting and joining ---------- */

  function Split(s: string): (pieces: seq<string>)
    ensures |pieces| >= 1
  {
    if s == "" then [""]
    else
      var rest := Split(s[1..]);
      if s[0] == '/' then [""] + rest else [[s[0]] + rest[0]] + rest[1..]
  }

  function Join(parts: seq<string>): string {
    if parts == [] then ""
    else if |parts| == 1 then parts[0]
    else parts[0] + "/" + Join(parts[1..])
  }

  // An ordinary path component: what `Component::Normal` can hold.
  predicate IsName(part: string) {
    part != "" && part != "." && part != ".." && '/' !in part
  }

  lemma {:induction false} SplitOfPart(part: string)
    requires '/' !in part
    ensures Split(part) == [part]
  {
    if part != "" {
      assert '/' !in part[1..];
      SplitOfPart(part[1..]);
      assert [part[0]] + part[1..] == part;
    }
  }

  lemma {:induction false} SplitAtSlash(part: string, rest: string)
    requires '/' !in part
    ensures Split(part + "/" + rest) == [part] + Split(rest)
  {
    var s := part + "/" + rest;
    if part == "" {
      assert s[1..] == rest;
    } else {
      assert '/' !in part[1..];
      SplitAtSlash(part[1..], rest);
      assert s[1..] == part[1..] + "/" + rest;
      assert Split(s) == [[s[0]] + Split(s[1..])[0]] + Split(s[1..])[1..];
      assert [part[0]] + part[1..] == part;
    }
  }

  // Splitting a joined key gives back its parts.
  lemma {:induction false} SplitOfJoin(parts: seq<string>)
    requires parts != []
    requires forall part | part in parts :: '/' !in part
    ensures Split(Join(parts)) == parts
  {
    if |parts| == 1 {
      SplitOfPart(parts[0]);
    } else {
      SplitOfJoin(parts[1..]);
      SplitAtSlash(parts[0], Join(parts[1..]));
    }
  }

  lemma JoinOfMore(first: string, rest: seq<string>)
    requires rest != []
    ensures Join([first] + rest) == first + "/" + Join(rest)
  {
    assert ([first] + rest)[1..] == rest;
  }

  lemma JoinGrows(c: char, parts: seq<string>)
    requires parts != []
    ensures Join([[c] + parts[0]] + parts[1..]) == [c] + Join(parts)
  {
    hide Join;
    var first, rest := parts[0], parts[1..];
    assert parts == [first] + rest;
    if rest == [] {
      JoinOfOne(first);
      JoinOfOne([c] + first);
      assert parts == [first] && [[c] + first] + rest == [[c] + first];
    } else {
      JoinOfMore(first, rest);
      JoinOfMore([c] + first, rest);
      assert ([c] + first) + "/" + Join(rest) == [c] + (first + "/" + Join(rest));
    }
  }

  lemma JoinOfOne(part: string)
    ensures Join([part]) == part
  {}

  // And joining what was split gives back the whole: the pieces are exactly what lies between the separators.
  lemma {:induction false} JoinOfSplit(s: string)
    ensures Join(Split(s)) == s
    ensures forall piece | piece in Split(s) :: '/' !in piece
  {
    SplitPiecesHaveNoSlash(s);
    hide Join;
    if s == "" {
      JoinOfOne("");
    } else {
      JoinOfSplit(s[1..]);
      JoinGrows(s[0], Split(s[1..]));
      JoinOfMore("", Split(s[1..]));
      assert s == [s[0]] + s[1..] && "" + "/" == ['/'];
    }
  }

  lemma {:induction false} SplitPiecesHaveNoSlash(s: string)
    ensures forall piece | piece in Split(s) :: '/' !in piece
  {
    if s != "" {
      SplitPiecesHaveNoSlash(s[1..]);
      var rest := Split(s[1..]);
      assert rest[0] in rest;
      forall piece | piece in Split(s)
        ensures '/' !in piece
      {
        if piece in rest[1..] { assert piece in rest; }
      }
    }
  }

  /* ---------- components of a path ---------- */

  // Empty and `.` pieces disappear; only a leading `.` of a relative path is kept as `CurDir`.
  function Body(pieces: seq<string>): seq<Component> {
    if pieces == [] then []
    else if pieces[0] == "" || pieces[0] == "." then Body(pieces[1..])
    else if pieces[0] == ".." then [ParentDir] + Body(pieces[1..])
    else [Normal(pieces[0])] + Body(pieces[1..])
  }

  predicate IsAbsolute(path: string) {
    path != "" && path[0] == '/'
  }

  function Components(path: string): seq<Component> {
    var pieces := Split(path);
    (if IsAbsolute(path) then [RootDir] else if pieces[0] == "." then [CurDir] else []) + Body(pieces)
  }

  predicate AllNormal(components: seq<Component>) {
    forall c | c in components :: c.Normal?
  }

  function NamesOf(components: seq<Component>): (names: seq<string>)
    requires AllNormal(components)
    ensures |names| == |components|
    ensures forall i | 0 <= i < |names| :: names[i] == components[i].name
  {
    if components == [] then []
    else
      assert components[0] in components;
      [components[0].name] + NamesOf(components[1..])
  }

  lemma {:induction false} BodyHoldsNames(pieces: seq<string>)
    requires forall piece | piece in pieces :: '/' !in piece
    ensures forall c | c in Body(pieces) :: c == ParentDir || (c.Normal? && IsName(c.name))
  {
    if pieces != [] {
      BodyHoldsNames(pieces[1..]);
    }
  }

  lemma {:induction false} BodyOfNames(names: seq<string>)
    requires forall name | name in names :: IsName(name)
    ensures AllNormal(Body(names)) && NamesOf(Body(names)) == names
  {
    if names != [] {
      assert IsName(names[0]);
      BodyOfNames(names[1..]);
      var tail := Body(names[1..]);
      assert Body(names) == [Normal(names[0])] + tail;
      assert NamesOf(Body(names)) == names;
    }
  }

  lemma ComponentsHoldNames(path: string)
    requires AllNormal(Components(path))
    ensures forall name | name in NamesOf(Components(path)) :: IsName(name)
  {
    SplitPiecesHaveNoSlash(path);
    BodyHoldsNames(Split(path));
    forall name | name in NamesOf(Components(path))
      ensures IsName(name)
    {
      var i :| 0 <= i < |NamesOf(Components(path))| && NamesOf(Components(path))[i] == name;
      var c := Components(path)[i];
      assert c.Normal?;
      assert c in Body(Split(path));
    }
  }

  lemma {:induction false} JoinKeepsFirst(parts: seq<string>)
    requires parts != [] && IsName(parts[0])
    ensures Join(parts) != "" && Join(parts)[0] == parts[0][0]
  {}

  // A joined list of names has exactly those names as its components.
  lemma ComponentsOfJoin(names: seq<string>)
    requires names != []
    requires forall name | name in names :: IsName(name)
    ensures Components(Join(names)) == Body(names)
    ensures AllNormal(Components(Join(names))) && NamesOf(Components(Join(names))) == names
    ensures !IsAbsolute(Join(names)) && Join(names) != ""
  {
    SplitOfJoin(names);
    assert IsName(names[0]);
    JoinKeepsFirst(names);
    BodyOfNames(names);
    assert names[0][0] in names[0];
    assert Components(Join(names)) == [] + Body(names);
  }

  /* ---------- names of staging temporaries ---------- */

  predicate IsDigit(c: char) { '0' <= c <= '9' }

  predicate AllDigits(s: string) { forall c | c in s :: IsDigit(c) }

  function Decimal(n: nat): (s: string)
    ensures s != "" && AllDigits(s)
  {
    var digit := [('0' as int + n % 10) as char];
    if n < 10 then digit else Decimal(n / 10) + digit
  }

  function Value(s: string): int {
    if s == "" then 0 else 10 * Value(s[..|s| - 1]) + (s[|s| - 1] as int - '0' as int)
  }

  lemma {:induction false} ValueOfDecimal(n: nat)
    ensures Value(Decimal(n)) == n
  {
    var digit := [('0' as int + n % 10) as char];
    if n < 10 {
      assert Decimal(n) == digit && digit[..0] == "";
    } else {
      ValueOfDecimal(n / 10);
      assert Decimal(n)[..|Decimal(n)| - 1] == Decimal(n / 10);
    }
  }

  predicate StartsWith(s: string, prefix: string) {
    |prefix| <= |s| && s[..|prefix|] == prefix
  }

  /** `str::rsplit_once`: split around the last occurrence of `pattern`. */
  function RSplitOnce(s: string, pattern: string): Option<(string, string)> {
    RSplitFrom(s, pattern, |s|)
  }

  function RSplitFrom(s: string, pattern: string, at: nat): Option<(string, string)>
    requires at <= |s|
    decreases at
  {
    if StartsWith(s[at..], pattern) then Some((s[..at], s[at + |pattern|..]))
    else if at == 0 then None
    else RSplitFrom(s, pattern, at - 1)
  }

  /** `str::split_once` on one character: split around its first occurrence. */
  function SplitOnce(s: string, c: char): Option<(string, string)> {
    if s == "" then None
    else if s[0] == c then Some(("", s[1..]))
    else match SplitOnce(s[1..], c)
      case None => None
      case Some((head, tail)) => Some(([s[0]] + head, tail))
  }

  predicate IsStagingTemporary(name: string) {
    name != "" && name[0] == '.' &&
    match RSplitOnce(name[1..], STAGING_TEMP_INFIX)
    case None => false
    case Some((_, tail)) =>
      match SplitOnce(tail, '-')
      case None => false
      case Some((pid, sequence)) =>
        pid != "" && sequence != "" && AllDigits(pid) && AllDigits(sequence)
  }

  function TempShape(name: string, pid: string, sequence: string): string {
    "." + name + STAGING_TEMP_INFIX + pid + "-" + sequence
  }

  /** The file name `staging_temp_path` prints for a destination's file name. */
  function StagingTempName(name: string, pid: nat, sequence: nat): string {
    TempShape(name, Decimal(pid), Decimal(sequence))
  }

  lemma {:induction false} SplitOnceAt(head: string, c: char, tail: string)
    requires c !in head
    ensures SplitOnce(head + [c] + tail, c) == Some((head, tail))
  {
    var s := head + [c] + tail;
    if head == "" {
      assert s[1..] == tail;
    } else {
      assert c !in head[1..];
      SplitOnceAt(head[1..], c, tail);
      assert s[1..] == head[1..] + [c] + tail;
      assert [head[0]] + head[1..] == head;
    }
  }

  lemma {:induction false} SplitOnceParts(s: string, c: char)
    requires SplitOnce(s, c).Some?
    ensures s == SplitOnce(s, c).value.0 + [c] + SplitOnce(s, c).value.1
  {
    if s[0] != c {
      SplitOnceParts(s[1..], c);
      assert s == [s[0]] + s[1..];
    }
  }

  lemma {:induction false} RSplitFromParts(s: string, pattern: string, at: nat)
    requires at <= |s|
    requires RSplitFrom(s, pattern, at).Some?
    ensures s == RSplitFrom(s, pattern, at).value.0 + pattern + RSplitFrom(s, pattern, at).value.1
    decreases at
  {
    if StartsWith(s[at..], pattern) {
      assert s == s[..at] + s[at..];
      assert s[at..] == pattern + s[at..][|pattern|..];
      assert s[at..][|pattern|..] == s[at + |pattern|..];
    } else {
      RSplitFromParts(s, pattern, at - 1);
    }
  }

  lemma FirstOfPrefix(s: string, prefix: string)
    requires prefix != ""
    ensures StartsWith(s, prefix) ==> s != "" && s[0] == prefix[0]
  {
    if StartsWith(s, prefix) {
      assert s[..|prefix|][0] == s[0];
    }
  }

  // After the printed infix come only digits and one dash, so no later occurrence exists: an
  // occurrence starts with a dot, and the only dots at or after `at` is the infix's own first character.
  lemma {:induction false} LastInfixIsPrinted(name: string, tail: string, from: nat)
    requires '.' !in tail
    requires |name| <= from <= |name + STAGING_TEMP_INFIX + tail|
    ensures RSplitFrom(name + STAGING_TEMP_INFIX + tail, STAGING_TEMP_INFIX, from) == Some((name, tail))
    decreases from
  {
    var s := name + STAGING_TEMP_INFIX + tail;
    if from == |name| {
      assert s[from..] == STAGING_TEMP_INFIX + tail;
      assert s[..from] == name;
      assert s[from + |STAGING_TEMP_INFIX|..] == tail;
    } else {
      if from < |s| {
        assert s[from] != '.';
      }
      FirstOfPrefix(s[from..], STAGING_TEMP_INFIX);
      LastInfixIsPrinted(name, tail, from - 1);
    }
  }

  lemma ParseTempShape(name: string, pid: string, sequence: string)
    requires AllDigits(pid) && AllDigits(sequence)
    ensures var rest := TempShape(name, pid, sequence)[1..];
            && RSplitOnce(rest, STAGING_TEMP_INFIX) == Some((name, pid + "-" + sequence))
            && SplitOnce(pid + "-" + sequence, '-') == Some((pid, sequence))
  {
    var tail := pid + "-" + sequence;
    forall c | c in tail
      ensures c != '.'
    {
      if c in pid || c in sequence { assert IsDigit(c); }
    }
    assert TempShape(name, pid, sequence)[1..] == name + STAGING_TEMP_INFIX + tail;
    LastInfixIsPrinted(name, tail, |name + STAGING_TEMP_INFIX + tail|);
    assert '-' !in pid;
    SplitOnceAt(pid, '-', sequence);
  }

  // The recogniser accepts exactly the shape `.NAME.staging-DIGITS-DIGITS`.
  lemma RecogniserIsExact(candidate: string)
    ensures IsStagingTemporary(candidate) <==>
            exists name, pid, sequence ::
              && candidate == TempShape(name, pid, sequence)
              && pid != "" && sequence != "" && AllDigits(pid) && AllDigits(sequence)
  {
    if IsStagingTemporary(candidate) {
      var rest := candidate[1..];
      var (name, tail) := RSplitOnce(rest, STAGING_TEMP_INFIX).value;
      var (pid, sequence) := SplitOnce(tail, '-').value;
      RSplitFromParts(rest, STAGING_TEMP_INFIX, |rest|);
      SplitOnceParts(tail, '-');
      assert candidate == "." + rest;
      assert candidate == TempShape(name, pid, sequence);
    }
    forall name, pid, sequence |
      && candidate == TempShape(name, pid, sequence)
      && pid != "" && sequence != "" && AllDigits(pid) && AllDigits(sequence)
      ensures IsStagingTemporary(candidate)
    {
      ParseTempShape(name, pid, sequence);
    }
  }

  // Every printed temporary is recognised, whatever the file name, process id and sequence.
  lemma PrintedTemporaryIsRecognised(name: string, pid: nat, sequence: nat)
    ensures IsStagingTemporary(StagingTempName(name, pid, sequence))
  {
    ParseTempShape(name, Decimal(pid), Decimal(sequence));
  }

  // Two temporaries with one name were printed for the same file by the same process and sequence.
  lemma PrintingIsInjective(name: string, pid: nat, sequence: nat, name': string, pid': nat, sequence': nat)
    requires StagingTempName(name, pid, sequence) == StagingTempName(name', pid', sequence')
    ensures name == name' && pid == pid' && sequence == sequence'
  {
    ParseTempShape(name, Decimal(pid), Decimal(sequence));
    ParseTempShape(name', Decimal(pid'), Decimal(sequence'));
    ValueOfDecimal(pid);
    ValueOfDecimal(pid');
    ValueOfDecimal(sequence);
    ValueOfDecimal(sequence');
  }

  /* ---------- canonical keys ---------- */

  function LowerAscii(s: string): string {
    if s == "" then ""
    else [if 'A' <= s[0] <= 'Z' then (s[0] as int + 32) as char else s[0]] + LowerAscii(s[1..])
  }

  predicate EqIgnoreAsciiCase(a: string, b: string) {
    LowerAscii(a) == LowerAscii(b)
  }

  // One and the same character, or an ASCII letter in its two cases.
  predicate CaseTwins(c: char, d: char) {
    || c == d
    || ('A' <= c <= 'Z' && d as int == c as int + 32)
    || ('A' <= d <= 'Z' && c as int == d as int + 32)
  }

  predicate Spells(s: string, name: string) {
    |s| == |name| && forall i | 0 <= i < |s| :: CaseTwins(s[i], name[i])
  }

  lemma {:induction false} EqIgnoreAsciiCaseIsSpelling(a: string, b: string)
    ensures EqIgnoreAsciiCase(a, b) <==> Spells(a, b)
  {
    if a != "" && b != "" {
      EqIgnoreAsciiCaseIsSpelling(a[1..], b[1..]);
      if Spells(a, b) {
        forall i | 0 <= i < |a| - 1
          ensures CaseTwins(a[1..][i], b[1..][i])
        {
          assert CaseTwins(a[i + 1], b[i + 1]);
        }
      }
      if EqIgnoreAsciiCase(a, b) {
        assert LowerAscii(a)[1..] == LowerAscii(a[1..]) && LowerAscii(b)[1..] == LowerAscii(b[1..]);
        assert LowerAscii(a)[0] == LowerAscii(b)[0];
        forall i | 0 <= i < |a|
          ensures |a| == |b| && CaseTwins(a[i], b[i])
        {
          if i > 0 { assert CaseTwins(a[1..][i - 1], b[1..][i - 1]); }
        }
      }
    } else {
      assert |LowerAscii(a)| > 0 <==> a != "";
      assert |LowerAscii(b)| > 0 <==> b != "";
    }
  }

  predicate IsOwnedName(name: string) {
    EqIgnoreAsciiCase(name, CONFIG_FILE_NAME) || EqIgnoreAsciiCase(name, MANIFEST_FILE_NAME)
  }

  function ValidateDestination(destination: string): Result<string, NameError> {
    if destination == "" || IsAbsolute(destination) || !AllNormal(Components(destination))
    then Err(NotRelative)
    else Ok(destination)
  }

  // The component loop's result: the first offending component decides the error.
  function CollectParts(components: seq<Component>): Result<seq<string>, NameError> {
    if components == [] then Ok([])
    else if !components[0].Normal? then Err(NotRelative)
    else if IsStagingTemporary(components[0].name) then Err(ReservedForTemporaries)
    else match CollectParts(components[1..])
      case Err(error) => Err(error)
      case Ok(parts) => Ok([components[0].name] + parts)
  }

  function KeyOfParts(parts: seq<string>): Result<string, NameError> {
    if parts == [] then Err(EmptyDestination)
    else if |parts| == 1 && IsOwnedName(parts[0]) then Err(OwnedByGeneration)
    else Ok(Join(parts))
  }

  function KeyOf(destination: string): Result<string, NameError> {
    match CollectParts(Components(destination))
    case Err(error) => Err(error)
    case Ok(parts) => KeyOfParts(parts)
  }

  /** `validate_destination` followed by `destination_key`: the key a destination resolves to. */
  function Resolve(destination: string): Result<string, NameError> {
    match ValidateDestination(destination)
    case Err(error) => Err(error)
    case Ok(path) => KeyOf(path)
  }

  lemma {:induction false} CollectPartsStep(components: seq<Component>, i: nat)
    requires i < |components|
    requires forall j | 0 <= j < i :: components[j].Normal? && !IsStagingTemporary(components[j].name)
    ensures !components[i].Normal? ==> CollectParts(components) == Err(NotRelative)
    ensures components[i].Normal? && IsStagingTemporary(components[i].name) ==>
              CollectParts(components) == Err(ReservedForTemporaries)
    decreases i
  {
    if i > 0 {
      CollectPartsStep(components[1..], i - 1);
    }
  }

  lemma {:induction false} CollectPartsErrors(components: seq<Component>)
    ensures CollectParts(components).Err? ==> CollectParts(components).error in {NotRelative, ReservedForTemporaries}
    ensures AllNormal(components) ==> CollectParts(components) != Err(NotRelative)
  {
    if components != [] {
      CollectPartsErrors(components[1..]);
      assert components[0] in components && forall c | c in components[1..] :: c in components;
    }
  }

  lemma {:induction false} CollectPartsIsNames(components: seq<Component>)
    ensures CollectParts(components).Ok? <==>
            AllNormal(components) && forall c | c in components :: !IsStagingTemporary(c.name)
    ensures CollectParts(components).Ok? ==> CollectParts(components).value == NamesOf(components)
  {
    if components != [] {
      CollectPartsIsNames(components[1..]);
      if components[0].Normal? && !IsStagingTemporary(components[0].name) {
        assert components == [components[0]] + components[1..];
        if AllNormal(components) && forall c | c in components :: !IsStagingTemporary(c.name) {
          assert forall c | c in components[1..] :: c in components;
        }
      } else {
        assert components[0] in components;
      }
    }
  }

  /** `destination_key`, with its component loop. */
  method DestinationKey(destination: string) returns (key: Result<string, NameError>)
    ensures key == KeyOf(destination)
  {
    var components := Components(destination);
    var parts: seq<string> := [];
    for i := 0 to |components|
      invariant |parts| == i
      invariant forall j | 0 <= j < i :: components[j].Normal? && parts[j] == components[j].name
      invariant forall j | 0 <= j < i :: !IsStagingTemporary(parts[j])
    {
      if !components[i].Normal? {
        CollectPartsStep(components, i);
        return Err(NotRelative);
      }
      if IsStagingTemporary(components[i].name) {
        CollectPartsStep(components, i);
        return Err(ReservedForTemporaries);
      }
      parts := parts + [components[i].name];
    }
    CollectPartsIsNames(components);
    assert parts == NamesOf(components);
    key := KeyOfParts(parts);
  }

  // The pieces of a path that name something.
  function Named(pieces: seq<string>): seq<string> {
    if pieces == [] then []
    else (if pieces[0] == "" || pieces[0] == "." then [] else [pieces[0]]) + Named(pieces[1..])
  }

  lemma {:induction false} BodyIsNamed(pieces: seq<string>)
    ensures AllNormal(Body(pieces)) <==> ".." !in pieces
    ensures AllNormal(Body(pieces)) ==> NamesOf(Body(pieces)) == Named(pieces)
    ensures forall piece :: piece in Named(pieces) <==> piece in pieces && piece != "" && piece != "."
  {
    if pieces != [] {
      BodyIsNamed(pieces[1..]);
      assert pieces == [pieces[0]] + pieces[1..];
      var rest := Body(pieces[1..]);
      if pieces[0] == ".." {
        assert ParentDir in Body(pieces);
      } else if pieces[0] != "" && pieces[0] != "." {
        assert Body(pieces) == [Normal(pieces[0])] + rest;
        assert AllNormal(Body(pieces)) ==> AllNormal(rest) by {
          assert forall c | c in rest :: c in Body(pieces);
        }
      }
    }
  }

  // In whatever mixture of cases, the name of one of the generation's own two files.
  predicate SpellsOwnName(name: string) {
    Spells(name, CONFIG_FILE_NAME) || Spells(name, MANIFEST_FILE_NAME)
  }

  // Relative, without `..` anywhere or `.` in front.
  predicate Relative(destination: string) {
    destination != "" && destination[0] != '/' && Split(destination)[0] != "." && ".." !in Split(destination)
  }

  lemma RelativeIsAllNormal(destination: string)
    ensures Relative(destination) <==>
              destination != "" && !IsAbsolute(destination) && AllNormal(Components(destination))
    ensures Relative(destination) ==> NamesOf(Components(destination)) == Named(Split(destination)) != []
    ensures Relative(destination) ==>
              ((forall c | c in Components(destination) :: !IsStagingTemporary(c.name)) <==>
               forall piece | piece in Split(destination) :: !IsStagingTemporary(piece))
  {
    hide Split, Body, Named, IsStagingTemporary;
    var pieces := Split(destination);
    BodyIsNamed(pieces);
    if destination != "" && !IsAbsolute(destination) {
      if pieces[0] == "." {
        assert CurDir in Components(destination);
      } else {
        assert Components(destination) == Body(pieces);
        NonEmptyRelativeHasComponents(destination);
      }
    }
    if Relative(destination) {
      NamesSuffice(Components(destination));
      NothingIsNoTemporary();
    }
  }

  lemma NamesSuffice(components: seq<Component>)
    requires AllNormal(components)
    ensures (forall c | c in components :: !IsStagingTemporary(c.name)) <==>
            forall name | name in NamesOf(components) :: !IsStagingTemporary(name)
  {
    hide IsStagingTemporary;
    var names := NamesOf(components);
    forall c | c in components
      ensures c.name in names
    {
      var i :| 0 <= i < |names| && components[i] == c;
      assert names[i] == c.name;
    }
    forall name | name in names
      ensures exists c | c in components :: c.name == name
    {
      var i :| 0 <= i < |names| && names[i] == name;
      assert components[i] in components;
    }
  }

  lemma NothingIsNoTemporary()
    ensures !IsStagingTemporary("") && !IsStagingTemporary(".")
  {
    assert RSplitOnce("", STAGING_TEMP_INFIX) == None;
  }

  // A temporary ends in a digit; no spelling of an owned name does.
  lemma OwnNamesAreNotTemporaries(name: string)
    requires SpellsOwnName(name)
    ensures !IsStagingTemporary(name)
  {
    RecogniserIsExact(name);
    forall n, pid, sequence | sequence != "" && AllDigits(sequence)
      ensures name != TempShape(n, pid, sequence)
    {
      var shape := TempShape(n, pid, sequence);
      assert shape[|shape| - 1] == sequence[|sequence| - 1] && sequence[|sequence| - 1] in sequence;
      var own := if Spells(name, CONFIG_FILE_NAME) then CONFIG_FILE_NAME else MANIFEST_FILE_NAME;
      assert CaseTwins(name[|name| - 1], own[|own| - 1]);
    }
  }

  // Exactly these destinations are accepted, with the pieces that name something, in order, as their key; exactly
  // those are refused as the generation's own, and exactly those as not relative. What else is refused has a piece that
  // is shaped like a temporary.
  lemma AcceptedDestinations(destination: string)
    ensures Resolve(destination).Ok? <==>
            && Relative(destination) && (forall piece | piece in Split(destination) :: !IsStagingTemporary(piece))
            && !(|Named(Split(destination))| == 1 && SpellsOwnName(Named(Split(destination))[0]))
    ensures Resolve(destination).Ok? ==> Resolve(destination).value == Join(Named(Split(destination)))
    ensures Resolve(destination) == Err(OwnedByGeneration) <==>
              Relative(destination) && |Named(Split(destination))| == 1 && SpellsOwnName(Named(Split(destination))[0])
    ensures Resolve(destination) == Err(NotRelative) <==> !Relative(destination)
    ensures Resolve(destination) != Err(EmptyDestination)
  {
    hide Split, Components, Named, IsStagingTemporary, Spells, LowerAscii, Relative, CollectParts, Join;
    CollectPartsErrors(Components(destination));
    CollectPartsIsNames(Components(destination));
    RelativeIsAllNormal(destination);
    if Relative(destination) {
      var names := Named(Split(destination));
      OwnNameIsSpelled(names[0]);
      if |names| == 1 && SpellsOwnName(names[0]) {
        OwnNamesAreNotTemporaries(names[0]);
        forall c | c in Components(destination)
          ensures !IsStagingTemporary(c.name)
        {
          assert c == Components(destination)[0];
        }
      }
    }
  }

  lemma OwnNameIsSpelled(name: string)
    ensures IsOwnedName(name) <==> SpellsOwnName(name)
  {
    EqIgnoreAsciiCaseIsSpelling(name, CONFIG_FILE_NAME);
    EqIgnoreAsciiCaseIsSpelling(name, MANIFEST_FILE_NAME);
    hide EqIgnoreAsciiCase, Spells;
  }

  lemma NonEmptyRelativeHasComponents(destination: string)
    requires destination != "" && !IsAbsolute(destination)
    ensures Components(destination) != []
  {
    var pieces := Split(destination);
    assert pieces[0] != "";
  }

  // What an accepted key looks like.
  lemma AcceptedKeyShape(destination: string)
    requires Resolve(destination).Ok?
    ensures AllNormal(Components(destination))
    ensures var names := NamesOf(Components(destination));
            && names != [] && Resolve(destination).value == Join(names)
            && (forall name | name in names :: IsName(name) && !IsStagingTemporary(name))
            && !(|names| == 1 && IsOwnedName(names[0]))
  {
    var components := Components(destination);
    CollectPartsIsNames(components);
    ComponentsHoldNames(destination);
    forall name | name in NamesOf(components)
      ensures !IsStagingTemporary(name)
    {
      var i :| 0 <= i < |components| && NamesOf(components)[i] == name;
      assert components[i] in components;
    }
  }

  // Canonicalisation is idempotent and keeps the components, so a key never leaves the generation:
  // its components are ordinary names.
  lemma KeysAreCanonical(destination: string)
    requires Resolve(destination).Ok?
    ensures var key := Resolve(destination).value;
            && Resolve(key) == Ok(key)
            && Components(key) == Components(destination)
            && key != CONFIG_FILE_NAME && key != MANIFEST_FILE_NAME
  {
    AcceptedKeyShape(destination);
    var components := Components(destination);
    var names := NamesOf(components);
    var key := Join(names);
    ComponentsOfJoin(names);
    NamesDetermineComponents(Components(key), components);
    NotOwnedWhenJoined(names);
  }

  lemma NamesDetermineComponents(a: seq<Component>, b: seq<Component>)
    requires AllNormal(a) && AllNormal(b) && NamesOf(a) == NamesOf(b)
    ensures a == b
  {
    assert |a| == |b|;
    forall i | 0 <= i < |a|
      ensures a[i] == b[i]
    {
      assert a[i] in a && b[i] in b;
      assert NamesOf(a)[i] == NamesOf(b)[i];
    }
  }

  lemma NotOwnedWhenJoined(names: seq<string>)
    requires names != [] && (|names| == 1 ==> !IsOwnedName(names[0]))
    ensures Join(names) != CONFIG_FILE_NAME && Join(names) != MANIFEST_FILE_NAME
  {
    hide IsOwnedName;
    OwnNamesAreNames();
    if |names| == 1 {
      OwnedNames(names[0]);
    } else {
      JoinHasSlash(names);
    }
  }

  lemma JoinHasSlash(names: seq<string>)
    requires |names| >= 2
    ensures '/' in Join(names)
  {
    assert Join(names)[|names[0]|] == '/';
  }

  lemma OwnNamesAreNames()
    ensures IsName(CONFIG_FILE_NAME) && IsName(MANIFEST_FILE_NAME)
  {}

  lemma OwnedNames(name: string)
    ensures name == CONFIG_FILE_NAME || name == MANIFEST_FILE_NAME ==> IsOwnedName(name)
  {}

  // Two accepted destinations share a key exactly when they have the same components.
  lemma SameKeyIffSameComponents(a: string, b: string)
    requires Resolve(a).Ok? && Resolve(b).Ok?
    ensures Resolve(a) == Resolve(b) <==> Components(a) == Components(b)
  {
    KeysAreCanonical(a);
    KeysAreCanonical(b);
    CollectPartsIsNames(Components(a));
    CollectPartsIsNames(Components(b));
  }

  /** A planned path: a key that some destination resolved to. */
  predicate IsKey(key: string) {
    Resolve(key) == Ok(key)
  }

  // Resolving a planned path again cannot fail, so the executors' mid-plan error exits are dead.
  lemma PlannedPathsResolve(destination: string)
    requires Resolve(destination).Ok?
    ensures IsKey(Resolve(destination).value)
  {
    KeysAreCanonical(destination);
  }

  /* ---------- temporaries never collide with destinations ---------- */

  /** The full path of a temporary beside the file named by `names`. */
  function TempPath(names: seq<string>, pid: nat, sequence: nat): string
    requires names != []
  {
    Join(names[..|names| - 1] + [StagingTempName(names[|names| - 1], pid, sequence)])
  }

  lemma TempNameIsName(name: string, pid: nat, sequence: nat)
    requires '/' !in name
    ensures IsName(StagingTempName(name, pid, sequence))
  {
    var temp := StagingTempName(name, pid, sequence);
    assert |temp| > |STAGING_TEMP_INFIX|;
    forall c | c in temp
      ensures c != '/'
    {
      if c in Decimal(pid) || c in Decimal(sequence) { assert IsDigit(c); }
      if c in STAGING_TEMP_INFIX {}
    }
  }

  // No destination a bundle may declare is the path of any temporary of any file in the generation.
  lemma NoDestinationIsATemporary(key: string, names: seq<string>, pid: nat, sequence: nat)
    requires IsKey(key)
    requires names != [] && forall name | name in names :: IsName(name)
    ensures key != TempPath(names, pid, sequence)
  {
    var last := names[|names| - 1];
    var path := names[..|names| - 1] + [StagingTempName(last, pid, sequence)];
    assert last in names;
    TempNameIsName(last, pid, sequence);
    forall name | name in path
      ensures IsName(name)
    {
      if name in names[..|names| - 1] { assert name in names; }
    }
    ComponentsOfJoin(path);
    PrintedTemporaryIsRecognised(last, pid, sequence);
    AcceptedKeyShape(key);
    assert StagingTempName(last, pid, sequence) in path;
    assert NamesOf(Components(key)) != path;
  }

  // Temporaries of different files, or of different runs, never share a path.
  lemma TempPathIsInjective(names: seq<string>, pid: nat, sequence: nat,
                            names': seq<string>, pid': nat, sequence': nat)
    requires names != [] && forall name | name in names :: '/' !in name
    requires names' != [] && forall name | name in names' :: '/' !in name
    requires TempPath(names, pid, sequence) == TempPath(names', pid', sequence')
    ensures names == names' && pid == pid' && sequence == sequence'
  {
    var n, n' := |names| - 1, |names'| - 1;
    assert names[n] in names && names'[n'] in names';
    TempNameIsName(names[n], pid, sequence);
    TempNameIsName(names'[n'], pid', sequence');
    var path := names[..n] + [StagingTempName(names[n], pid, sequence)];
    var path' := names'[..n'] + [StagingTempName(names'[n'], pid', sequence')];
    SplitOfJoin(path);
    SplitOfJoin(path');
    assert path == path';
    assert path[n] == path'[n'] && path[..n] == names[..n] && path'[..n'] == names'[..n'];
    PrintingIsInjective(names[n], pid, sequence, names'[n'], pid', sequence');
    assert names == names[..n] + [names[n]] && names' == names'[..n'] + [names'[n']];
  }
}
