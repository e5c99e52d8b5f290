/** Organisation slugs: lower case, runs of other characters collapsed to one dash, dashes trimmed at both ends. */
module Slug {
  predicate IsUpper(c: char) { 'A' <= c <= 'Z' }

  predicate Keeps(c: char) { 'a' <= c <= 'z' || '0' <= c <= '9' }

  function Lower(c: char): char {
    if IsUpper(c) then (c as int + 32) as char else c
  }

  // strings.ToLower on ASCII.
  function ToLower(s: string): string {
    if s == [] then [] else [Lower(s[0])] + ToLower(s[1..])
  }

  // Every maximal run of characters outside [a-z0-9] becomes one dash.
  function Collapse(s: string): string {
    if s == [] then []
    else if Keeps(s[0]) then [s[0]] + Collapse(s[1..])
    else if |s| > 1 && !Keeps(s[1]) then Collapse(s[1..])
    else "-" + Collapse(s[1..])
  }

  function TrimLeft(s: string): string {
    if s != [] && s[0] == '-' then TrimLeft(s[1..]) else s
  }

  function TrimRight(s: string): string {
    if s != [] && s[|s| - 1] == '-' then TrimRight(s[..|s| - 1]) else s
  }

  function Slugify(name: string): string {
    TrimRight(TrimLeft(Collapse(ToLower(name))))
  }

  /** Only lower-case letters, digits and dashes, with no two dashes side by side. */
  predicate SingleDashes(s: string) {
    && (forall k :: 0 <= k < |s| ==> 'a' <= s[k] <= 'z' || '0' <= s[k] <= '9' || s[k] == '-')
    && (forall k :: 0 <= k < |s| - 1 ==> s[k] == '-' ==> s[k + 1] != '-')
  }

  /** Empty, or groups of lower-case letters and digits joined by single dashes. */
  predicate NormalForm(s: string) {
    SingleDashes(s) && (s != [] ==> s[0] != '-' && s[|s| - 1] != '-')
  }

  lemma {:induction false} CollapseSingle(s: string)
    ensures SingleDashes(Collapse(s))
    ensures s != [] ==> Collapse(s) != [] && Collapse(s)[0] == if Keeps(s[0]) then s[0] else '-'
  {
    if s != [] {
      CollapseSingle(s[1..]);
    }
  }

  lemma {:induction false} TrimLeftNormal(s: string)
    requires SingleDashes(s)
    ensures SingleDashes(TrimLeft(s)) && (TrimLeft(s) != [] ==> TrimLeft(s)[0] != '-')
  {
    if s != [] && s[0] == '-' {
      TrimLeftNormal(s[1..]);
    }
  }

  lemma {:induction false} TrimRightNormal(s: string)
    requires SingleDashes(s) && (s != [] ==> s[0] != '-')
    ensures NormalForm(TrimRight(s))
  {
    if s != [] && s[|s| - 1] == '-' {
      TrimRightNormal(s[..|s| - 1]);
    }
  }

  /** Every name yields a slug in normal form. */
  lemma SlugIsNormal(name: string)
    ensures NormalForm(Slugify(name))
  {
    CollapseSingle(ToLower(name));
    TrimLeftNormal(Collapse(ToLower(name)));
    TrimRightNormal(TrimLeft(Collapse(ToLower(name))));
  }

  lemma {:induction false} SingleDashesFixed(s: string)
    requires SingleDashes(s)
    ensures ToLower(s) == s && Collapse(s) == s
  {
    if s != [] {
      SingleDashesFixed(s[1..]);
    }
  }

  /** A string is its own slug exactly when it is in normal form. */
  lemma FixedIffNormal(s: string)
    ensures Slugify(s) == s <==> NormalForm(s)
  {
    SlugIsNormal(s);
    if NormalForm(s) {
      SingleDashesFixed(s);
    }
  }

  lemma SlugifyIdempotent(name: string)
    ensures Slugify(Slugify(name)) == Slugify(name)
  {
    SlugIsNormal(name);
    FixedIffNormal(Slugify(name));
  }

  // ----- the slug as the words of the name -----

  // The maximal groups of letters and digits of a name, in order and in lower case.
  function Words(s: string): (ws: seq<string>)
    ensures s != [] && Keeps(Lower(s[0])) ==> ws != []
  {
    if s == [] then []
    else if !Keeps(Lower(s[0])) then Words(s[1..])
    else
      var rest := Words(s[1..]);
      if |s| > 1 && Keeps(Lower(s[1])) then [[Lower(s[0])] + rest[0]] + rest[1..] else [[Lower(s[0])]] + rest
  }

  function Join(ws: seq<string>): string {
    if ws == [] then ""
    else if |ws| == 1 then ws[0]
    else ws[0] + "-" + Join(ws[1..])
  }

  lemma {:induction false} CollapseKeepsWords(s: string)
    ensures Words(Collapse(ToLower(s))) == Words(s)
  {
    if s != [] {
      CollapseKeepsWords(s[1..]);
      CollapseSingle(ToLower(s[1..]));
      var tail := Collapse(ToLower(s[1..]));
      assert ([Lower(s[0])] + tail)[1..] == tail && ("-" + tail)[1..] == tail;
    }
  }

  lemma {:induction false} TrimLeftKeepsWords(s: string)
    ensures Words(TrimLeft(s)) == Words(s)
  {
    if s != [] && s[0] == '-' {
      TrimLeftKeepsWords(s[1..]);
    }
  }

  lemma {:induction false} DashAddsNoWord(s: string)
    ensures Words(s + "-") == Words(s)
  {
    if s != [] {
      DashAddsNoWord(s[1..]);
      assert (s + "-")[1..] == s[1..] + "-";
    }
  }

  lemma {:induction false} TrimRightKeepsWords(s: string)
    ensures Words(TrimRight(s)) == Words(s)
  {
    if s != [] && s[|s| - 1] == '-' {
      TrimRightKeepsWords(s[..|s| - 1]);
      DashAddsNoWord(s[..|s| - 1]);
      assert s == s[..|s| - 1] + "-";
    }
  }

  lemma {:induction false} JoinOfWords(s: string)
    requires SingleDashes(s) && (s != [] ==> s[|s| - 1] != '-')
    ensures Join(Words(s)) == if s != [] && s[0] == '-' then s[1..] else s
    ensures s != [] ==> Words(s) != []
  {
    if s != [] {
      JoinOfWords(s[1..]);
    }
  }

  predicate Alphanumeric(c: char) { 'a' <= c <= 'z' || 'A' <= c <= 'Z' || '0' <= c <= '9' }

  lemma {:induction false} LowerWord(s: string)
    requires forall k :: 0 <= k < |s| ==> Alphanumeric(s[k])
    ensures |ToLower(s)| == |s| && SingleDashes(ToLower(s))
    ensures forall k :: 0 <= k < |s| ==>
      ToLower(s)[k] == (if 'A' <= s[k] <= 'Z' then (s[k] as int + 32) as char else s[k]) && ToLower(s)[k] != '-'
  {
    if s != [] {
      LowerWord(s[1..]);
    }
  }

  /** A name of letters and digits only is its own slug up to case. */
  lemma WordIsKept(s: string)
    requires forall k :: 0 <= k < |s| ==> Alphanumeric(s[k])
    ensures |Slugify(s)| == |s|
    ensures forall k :: 0 <= k < |s| ==>
      Slugify(s)[k] == if 'A' <= s[k] <= 'Z' then (s[k] as int + 32) as char else s[k]
  {
    LowerWord(s);
    SingleDashesFixed(ToLower(s));
  }

  /** The slug of a name is its words in lower case, joined by single dashes. */
  lemma SlugJoinsWords(name: string)
    ensures Slugify(name) == Join(Words(name))
  {
    SlugIsNormal(name);
    JoinOfWords(Slugify(name));
    CollapseKeepsWords(name);
    TrimLeftKeepsWords(Collapse(ToLower(name)));
    TrimRightKeepsWords(TrimLeft(Collapse(ToLower(name))));
  }
}
