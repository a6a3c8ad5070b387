/**
 The To/From parameter listing of the newer analyzer: a naive split of the
 header value on every `;`, with the first piece dropped. It does not follow
 the header grammar of section 25.1 of RFC 3261: quoted strings and `<...>`
 URIs are not recognised, so a `;` inside the URI starts a parameter too.
 */
module HeaderParams {
  import opened Text

  /** The write for one parameter piece: stripped, then split at its first `=` into a
      stripped key and value, or listed as a bare token when it has no `=`. */
  function ParamLine(piece: string): string
  {
    var param := Strip(piece);
    if '=' in param then
      var kv := SplitOnce(param, '=');
      "  " + Strip(kv.0) + ": " + Strip(kv.1) + "\n"
    else
      "  " + param + "\n"
  }

  /** The pieces after the first one in `value.split(';')`. */
  function Params(value: string): seq<string>
  {
    Split(value, ';')[1..]
  }

  /** One line per piece, in order. */
  function ParamLines(pieces: seq<string>): (lines: seq<string>)
    ensures |lines| == |pieces|
  {
    if pieces == [] then [] else [ParamLine(pieces[0])] + ParamLines(pieces[1..])
  }

  /** Line `i` is made from piece `i`. */
  lemma {:induction false} ParamLinesAt(pieces: seq<string>, i: nat)
    requires i < |pieces|
    ensures ParamLines(pieces)[i] == ParamLine(pieces[i])
  {
    if i > 0 {
      ParamLinesAt(pieces[1..], i - 1);
    }
  }

  /** The parameter writes for a header value. */
  function ParamWrites(value: string): seq<string>
  {
    ParamLines(Params(value))
  }

  /** Exactly one parameter write per `;` in the value, each made from the piece that
      follows that `;`, and the pieces rejoined form the value after its first `;`. */
  lemma ParamWritesCount(value: string)
    ensures |ParamWrites(value)| == Count(value, ';')
    ensures forall i :: 0 <= i < |Params(value)| ==> ';' !in Params(value)[i]
    ensures ';' in value ==> Join(Params(value), ';') == value[IndexOf(value, ';') + 1..]
  {
    SplitPieces(value, ';');
    if ';' in value {
      var i := IndexOf(value, ';');
      JoinSplit(value[i + 1..], ';');
    }
  }

  /** A piece with an `=` is listed as key and value split at the FIRST `=`, so the
      key has no `=` while the value may; a piece without one is listed whole. */
  lemma ParamLineShape(piece: string)
    ensures var param := Strip(piece);
      && ('=' in param ==> exists key, val ::
            && '=' !in key
            && param == key + "=" + val
            && ParamLine(piece) == "  " + Strip(key) + ": " + Strip(val) + "\n")
      && ('=' !in param ==> ParamLine(piece) == "  " + param + "\n")
  {
    var param := Strip(piece);
    if '=' in param {
      var kv := SplitOnce(param, '=');
      assert param == kv.0 + "=" + kv.1;
      assert ParamLine(piece) == "  " + Strip(kv.0) + ": " + Strip(kv.1) + "\n";
    }
  }

  /** Splitting a value assembled from separator-free pieces lists those pieces. */
  lemma ParamsOfJoin(parts: seq<string>)
    requires |parts| >= 1
    requires forall k :: 0 <= k < |parts| ==> ';' !in parts[k]
    ensures Params(Join(parts, ';')) == parts[1..]
  {
    SplitJoin(parts, ';');
  }

  lemma StripClean(s: string)
    requires s == [] || (!IsSpace(s[0]) && !IsSpace(s[|s| - 1]))
    ensures Strip(s) == s
  {
    StripUnique("", s, "");
    assert "" + s + "" == s;
  }

  lemma KeyValueLine(key: string, val: string)
    requires '=' !in key
    requires key != [] && !IsSpace(key[0]) && !IsSpace(key[|key| - 1])
    requires val != [] && !IsSpace(val[0]) && !IsSpace(val[|val| - 1])
    ensures ParamLine(key + "=" + val) == "  " + key + ": " + val + "\n"
  {
    var param := key + "=" + val;
    StripClean(param);
    StripClean(key);
    StripClean(val);
    IndexOfFirst(key, '=', val);
    assert param[..|key|] == key;
    assert param[|key| + 1..] == val;
  }

  lemma BareLine(token: string)
    requires '=' !in token
    requires token != [] && !IsSpace(token[0]) && !IsSpace(token[|token| - 1])
    ensures ParamLine(token) == "  " + token + "\n"
  {
    StripClean(token);
  }

  /** A clean, `;`-free piece, as the listing sees it. */
  predicate Token(s: string)
  {
    s != [] && ';' !in s && !IsSpace(s[0]) && !IsSpace(s[|s| - 1])
  }

  lemma ParamLinesTwo(x: string, y: string)
    ensures ParamLines([x, y]) == [ParamLine(x), ParamLine(y)]
  {
    assert [x, y][1..] == [y];
    assert [y][1..] == [];
  }

  /** A value whose two parameters are a `key=val` pair and a bare token. */
  lemma PairThenToken(uri: string, key: string, val: string, token: string)
    requires ';' !in uri && Token(key) && Token(val) && Token(token)
    requires '=' !in key && '=' !in token
    ensures ParamWrites(uri + ";" + key + "=" + val + ";" + token)
         == ["  " + key + ": " + val + "\n", "  " + token + "\n"]
  {
    var pair := key + "=" + val;
    var value := uri + ";" + pair + ";" + token;
    assert value == uri + ";" + key + "=" + val + ";" + token;
    var parts := [uri, pair, token];
    assert ';' !in pair;
    assert Join(parts[2..], ';') == token;
    assert Join(parts[1..], ';') == pair + ";" + token;
    assert Join(parts, ';') == value;
    ParamsOfJoin(parts);
    assert Params(value) == [pair, token];
    ParamLinesTwo(pair, token);
    KeyValueLine(key, val);
    BareLine(token);
  }

  /** A value whose two parameters are both `key=val` pairs. */
  lemma PairThenPair(uri: string, key1: string, val1: string, key2: string, val2: string)
    requires ';' !in uri && Token(key1) && Token(val1) && Token(key2) && Token(val2)
    requires '=' !in key1 && '=' !in key2
    ensures ParamWrites(uri + ";" + key1 + "=" + val1 + ";" + key2 + "=" + val2)
         == ["  " + key1 + ": " + val1 + "\n", "  " + key2 + ": " + val2 + "\n"]
  {
    var pair1 := key1 + "=" + val1;
    var pair2 := key2 + "=" + val2;
    var value := uri + ";" + pair1 + ";" + pair2;
    assert value == uri + ";" + key1 + "=" + val1 + ";" + key2 + "=" + val2;
    var parts := [uri, pair1, pair2];
    assert ';' !in pair1 && ';' !in pair2;
    assert Join(parts[2..], ';') == pair2;
    assert Join(parts[1..], ';') == pair1 + ";" + pair2;
    assert Join(parts, ';') == value;
    ParamsOfJoin(parts);
    assert Params(value) == [pair1, pair2];
    ParamLinesTwo(pair1, pair2);
    KeyValueLine(key1, val1);
    KeyValueLine(key2, val2);
  }

  /** The literal facts about the pieces of the two examples below. */
  lemma AlicePieces()
    ensures ';' !in "sip:alice@example.com" && Token("tag") && Token("abc") && Token("early")
    ensures '=' !in "tag" && '=' !in "early"
    ensures "sip:alice@example.com" + ";" + "tag" + "=" + "abc" + ";" + "early"
         == "sip:alice@example.com;tag=abc;early"
    ensures "  " + "tag" + ": " + "abc" + "\n" == "  tag: abc\n"
    ensures "  " + "early" + "\n" == "  early\n"
  {
  }

  lemma UriPieces()
    ensures ';' !in "<sip:a@x" && Token("user") && Token("phone>") && Token("tag") && Token("1")
    ensures '=' !in "user" && '=' !in "tag"
    ensures "<sip:a@x" + ";" + "user" + "=" + "phone>" + ";" + "tag" + "=" + "1"
         == "<sip:a@x;user=phone>;tag=1"
    ensures "  " + "user" + ": " + "phone>" + "\n" == "  user: phone>\n"
    ensures "  " + "tag" + ": " + "1" + "\n" == "  tag: 1\n"
  {
  }

  /** `sip:alice@example.com;tag=abc;early` lists `tag: abc` and the bare token `early`. */
  lemma AliceExample()
    ensures ParamWrites("sip:alice@example.com;tag=abc;early") == ["  tag: abc\n", "  early\n"]
  {
    AlicePieces();
    PairThenToken("sip:alice@example.com", "tag", "abc", "early");
  }

  /** The naive split goes inside the URI: `<sip:a@x;user=phone>;tag=1` lists
      `user: phone>` before `tag: 1`. */
  lemma UriParameterExample()
    ensures ParamWrites("<sip:a@x;user=phone>;tag=1") == ["  user: phone>\n", "  tag: 1\n"]
  {
    UriPieces();
    PairThenPair("<sip:a@x", "user", "phone>", "tag", "1");
  }
}
