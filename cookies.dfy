/**
 * The Cookie-header parser (src/lib/cookies.ts). `decodeURIComponent` is the
 * oracle `decode`: `None` stands for the `URIError` it throws on a malformed
 * escape, which escapes `parseCookies` as well, so a parse is `None` then.
 */
module Cookies {
  import opened Wrappers
  import opened Text

  /** The name of a `;`-separated piece: the trimmed piece up to its first `=`. */
  function PieceName(piece: string): string {
    Split(Trim(piece), '=')[0]
  }

  /** The raw value of a piece: the text between its first and second `=`, or "" without an `=`. */
  function PieceValue(piece: string): string {
    var parts := Split(Trim(piece), '=');
    if |parts| >= 2 then parts[1] else ""
  }

  /** A piece cut at `=`: its name and its raw (still encoded) value. */
  datatype Cut = Cut(name: string, raw: string)

  function CutOf(piece: string): Cut {
    Cut(PieceName(piece), PieceValue(piece))
  }

  /** `header.split(';')`, each piece cut. */
  function Cuts(header: string): (r: seq<Cut>)
    ensures |r| == |Split(header, ';')|
    ensures forall i :: 0 <= i < |r| ==> r[i] == CutOf(Split(header, ';')[i])
  {
    var pieces := Split(header, ';');
    seq(|pieces|, i requires 0 <= i < |pieces| => CutOf(pieces[i]))
  }

  /**
   * The one name a plain object does not store: assigning a string to
   * `__proto__` goes to the prototype setter, which ignores it.
   */
  const ProtoKey: string := "__proto__"

  /**
   * The record after one cut piece is written into `jar`: unnamed pieces are
   * skipped; a `__proto__` piece is still decoded, but its value is not kept.
   */
  function AddCut(cut: Cut, decode: string -> Option<string>, jar: map<string, string>): Option<map<string, string>> {
    if cut.name == "" then Some(jar)
    else
      match decode(cut.raw)
      case None => None
      case Some(value) => if cut.name == ProtoKey then Some(jar) else Some(jar[cut.name := value])
  }

  /** The record after `cuts` are written into `jar` in order. */
  function AddCuts(cuts: seq<Cut>, decode: string -> Option<string>, jar: map<string, string>): Option<map<string, string>>
    decreases |cuts|
  {
    if cuts == [] then Some(jar)
    else
      match AddCut(cuts[0], decode, jar)
      case None => None
      case Some(next) => AddCuts(cuts[1..], decode, next)
  }

  /** What `parseCookies(header)` returns, or `None` when decoding a value throws. */
  function CookieRecord(header: string, decode: string -> Option<string>): Option<map<string, string>> {
    if header == "" then Some(map[]) else AddCuts(Cuts(header), decode, map[])
  }

  /** The names a record can hold: the non-empty ones other than `__proto__`. */
  function Names(cuts: seq<Cut>): set<string>
    decreases |cuts|
  {
    if cuts == [] then {}
    else if cuts[0].name == "" || cuts[0].name == ProtoKey then Names(cuts[1..])
    else {cuts[0].name} + Names(cuts[1..])
  }

  lemma AddCutsStep(cuts: seq<Cut>, i: nat)
    requires i < |cuts|
    ensures cuts[i..][1..] == cuts[i + 1..]
  {
  }

  /** The source's `forEach` loop writing into the mutable `cookies` record. */
  method ParseCookies(header: string, decode: string -> Option<string>) returns (r: Option<map<string, string>>)
    ensures r == CookieRecord(header, decode)
  {
    if header == "" {
      return Some(map[]);
    }
    var pieces := Split(header, ';');
    ghost var cuts := Cuts(header);
    var cookies: map<string, string> := map[];
    var i := 0;
    while i < |pieces|
      invariant 0 <= i <= |pieces|
      invariant AddCuts(cuts[i..], decode, cookies) == AddCuts(cuts, decode, map[])
    {
      AddCutsStep(cuts, i);
      var name := PieceName(pieces[i]);
      if name != "" {
        var value := decode(PieceValue(pieces[i]));
        if value.None? {
          return None;
        }
        if name != ProtoKey {
          cookies := cookies[name := value.value];
        }
      }
      i := i + 1;
    }
    assert cuts[i..] == [];
    r := Some(cookies);
  }

  /**
   * A piece is trimmed as a whole and cut at `=`: the name is the text before
   * the first `=`, the value the text after it up to a second `=`; without an
   * `=` the whole trimmed piece is the name and the value is "".
   */
  lemma PieceParts(piece: string)
    ensures '=' !in PieceName(piece) && '=' !in PieceValue(piece)
    ensures '=' !in Trim(piece) ==> PieceName(piece) == Trim(piece) && PieceValue(piece) == ""
    ensures '=' in Trim(piece) ==> |PieceName(piece)| < |Trim(piece)|
    ensures '=' in Trim(piece) ==>
      var name := PieceName(piece);
      var rest := Trim(piece)[|name| + 1..];
      && Trim(piece) == name + "=" + rest
      && StartsWith(rest, PieceValue(piece))
      && (|PieceValue(piece)| < |rest| ==> rest[|PieceValue(piece)|] == '=')
  {
    PiecePartsHaveNoEquals(piece);
    if '=' in Trim(piece) {
      PieceWithEquals(piece);
    } else {
      SplitFirst(Trim(piece), '=');
    }
  }

  lemma PiecePartsHaveNoEquals(piece: string)
    ensures '=' !in PieceName(piece) && '=' !in PieceValue(piece)
  {
    SplitNoSeparator(Trim(piece), '=');
  }

  lemma PieceWithEquals(piece: string)
    requires '=' in Trim(piece)
    ensures |PieceName(piece)| < |Trim(piece)|
    ensures var name := PieceName(piece);
      var rest := Trim(piece)[|name| + 1..];
      && Trim(piece) == name + "=" + rest
      && StartsWith(rest, PieceValue(piece))
      && (|PieceValue(piece)| < |rest| ==> rest[|PieceValue(piece)|] == '=')
  {
    CutAtEquals(Trim(piece));
  }

  /** The first two `=`-fields of a text that holds an `=`. */
  lemma CutAtEquals(t: string)
    requires '=' in t
    ensures var parts := Split(t, '=');
      var name := parts[0];
      && |name| < |t|
      && var rest := t[|name| + 1..];
      && t == name + "=" + rest
      && |parts| >= 2
      && StartsWith(rest, parts[1])
      && (|parts[1]| < |rest| ==> rest[|parts[1]|] == '=')
  {
    var parts := Split(t, '=');
    var name := parts[0];
    assert |name| < |t| && t[|name|] == '=' && StartsWith(t, name) by {
      SplitFirst(t, '=');
      SplitNoSeparator(t, '=');
    }
    var rest := t[|name| + 1..];
    assert t == name + "=" + rest by {
      assert t == t[..|name|] + [t[|name|]] + rest;
    }
    assert |parts| >= 2 && parts[1] == Split(rest, '=')[0] by {
      SplitRest(t, '=');
    }
    SplitFirst(rest, '=');
  }

  /** An empty header gives an empty record without decoding anything. */
  lemma EmptyHeader(decode: string -> Option<string>)
    ensures CookieRecord("", decode) == Some(map[])
  {
  }

  /** The record's keys are exactly the non-empty names other than `__proto__`. */
  lemma {:induction false} AddCutsKeys(cuts: seq<Cut>, decode: string -> Option<string>, jar: map<string, string>)
    requires AddCuts(cuts, decode, jar).Some?
    ensures AddCuts(cuts, decode, jar).value.Keys == jar.Keys + Names(cuts)
    ensures ProtoKey !in jar ==> ProtoKey !in AddCuts(cuts, decode, jar).value
    decreases |cuts|
  {
    if cuts != [] {
      var next := AddCut(cuts[0], decode, jar).value;
      assert next.Keys == jar.Keys + (if cuts[0].name == "" || cuts[0].name == ProtoKey then {} else {cuts[0].name});
      AddCutsKeys(cuts[1..], decode, next);
    }
  }

  /** No header puts a `__proto__` entry into the record. */
  lemma ProtoNeverStored(header: string, decode: string -> Option<string>)
    requires CookieRecord(header, decode).Some?
    ensures ProtoKey !in CookieRecord(header, decode).value
  {
    if header != "" {
      AddCutsKeys(Cuts(header), decode, map[]);
    }
  }

  /** The entry of a record under `name`: `None` is the source's `undefined`. */
  function Get(jar: map<string, string>, name: string): Option<string> {
    if name in jar then Some(jar[name]) else None
  }

  /** A name no later piece carries keeps the entry it had. */
  lemma {:induction false} AddCutsUntouched(cuts: seq<Cut>, decode: string -> Option<string>, jar: map<string, string>, name: string)
    requires AddCuts(cuts, decode, jar).Some?
    requires forall j :: 0 <= j < |cuts| ==> cuts[j].name != name
    ensures Get(AddCuts(cuts, decode, jar).value, name) == Get(jar, name)
    decreases |cuts|
  {
    if cuts != [] {
      var next := AddCut(cuts[0], decode, jar).value;
      assert cuts[0].name != name;
      AddCutsUntouched(cuts[1..], decode, next, name);
    }
  }

  /** The entry of a name is the decoded value of its last piece: later pieces overwrite earlier ones. */
  lemma {:induction false} LastPieceWins(cuts: seq<Cut>, decode: string -> Option<string>, jar: map<string, string>, k: nat)
    requires k < |cuts| && cuts[k].name != "" && cuts[k].name != ProtoKey
    requires forall j :: k < j < |cuts| ==> cuts[j].name != cuts[k].name
    requires AddCuts(cuts, decode, jar).Some?
    ensures Get(AddCuts(cuts, decode, jar).value, cuts[k].name) == decode(cuts[k].raw)
    decreases |cuts|
  {
    var next := AddCut(cuts[0], decode, jar).value;
    if k == 0 {
      AddCutsUntouched(cuts[1..], decode, next, cuts[0].name);
    } else {
      LastPieceWins(cuts[1..], decode, next, k - 1);
    }
  }

  /** A named piece whose value cannot be decoded makes the whole parse throw. */
  lemma {:induction false} UndecodableThrows(cuts: seq<Cut>, decode: string -> Option<string>, jar: map<string, string>, k: nat)
    requires k < |cuts| && cuts[k].name != "" && decode(cuts[k].raw).None?
    ensures AddCuts(cuts, decode, jar).None?
    decreases |cuts|
  {
    var step := AddCut(cuts[0], decode, jar);
    if k > 0 && step.Some? {
      UndecodableThrows(cuts[1..], decode, step.value, k - 1);
    }
  }
}
