/** Ticker parsing from src/utils.py. */
module Utils {
  import opened Records
  import opened Strings

  /** Each comma-separated field, stripped and upper-cased. */
  function Normalized(fields: seq<string>): (r: seq<string>)
    ensures |r| == |fields|
    ensures forall i :: 0 <= i < |r| ==> r[i] == Upper(Strip(fields[i]))
  {
    if fields == [] then [] else [Upper(Strip(fields[0]))] + Normalized(fields[1..])
  }

  /** The non-empty entries of `ts`, in order. */
  function NonEmpty(ts: seq<string>): (r: seq<string>)
    ensures |r| <= |ts|
    ensures forall i :: 0 <= i < |r| ==> r[i] != "" && r[i] in ts
  {
    if ts == [] then []
    else if ts[0] == "" then NonEmpty(ts[1..])
    else [ts[0]] + NonEmpty(ts[1..])
  }

  /**
   * `parsear_tickers`: a missing or empty field yields no tickers; otherwise the
   * field is split on commas, each part stripped and upper-cased, and empty
   * parts dropped. Duplicates are kept.
   */
  function ParseTickers(field: Option<string>): (r: seq<string>)
    ensures field == None || field == Some("") ==> r == []
  {
    if field == None || field.value == "" then []
    else NonEmpty(Normalized(Split(field.value, ',')))
  }

  /**
   * Every parsed ticker is non-empty, upper-case and stripped, and there are
   * no more tickers than comma-separated fields.
   */
  lemma ParseTickersShape(field: Option<string>)
    ensures var r := ParseTickers(field);
      && (forall i :: 0 <= i < |r| ==> r[i] != "" && IsUpper(r[i]) && IsStripped(r[i]))
      && (field.Some? ==> |r| <= Count(field.value, ',') + 1)
  {
    if field.Some? && field.value != "" {
      var parts := Normalized(Split(field.value, ','));
      forall i | 0 <= i < |parts| ensures IsUpper(parts[i]) && IsStripped(parts[i]) {
        UpperKeepsStripped(Strip(Split(field.value, ',')[i]));
      }
    }
  }

  lemma {:induction false} NonEmptyOfBlanks(ts: seq<string>)
    requires forall i :: 0 <= i < |ts| ==> ts[i] == ""
    ensures NonEmpty(ts) == []
  {
    if ts != [] {
      NonEmptyOfBlanks(ts[1..]);
    }
  }

  /** No non-empty entry is dropped. */
  lemma {:induction false} NonEmptyKeepsEvery(ts: seq<string>, k: nat)
    requires k < |ts| && ts[k] != ""
    ensures ts[k] in NonEmpty(ts)
  {
    if k > 0 {
      NonEmptyKeepsEvery(ts[1..], k - 1);
    }
  }

  /** Dropping the empty entries keeps every other entry as often as it occurs. */
  lemma {:induction false} NonEmptyMultiset(ts: seq<string>)
    ensures multiset(NonEmpty(ts)) == multiset(ts)["" := 0]
  {
    if ts != [] {
      NonEmptyMultiset(ts[1..]);
      assert ts == [ts[0]] + ts[1..];
      DropBlankOfCons(ts[0], multiset(ts[1..]));
    }
  }

  /** Clearing the empty entry's count, one entry at a time. */
  lemma DropBlankOfCons(a: string, m: multiset<string>)
    ensures (multiset{a} + m)["" := 0] == if a == "" then m["" := 0] else multiset{a} + m["" := 0]
  {
  }

  lemma {:induction false} NonEmptyIsSubsequence(ts: seq<string>)
    ensures IsSubsequence(NonEmpty(ts), ts)
  {
    if ts != [] {
      NonEmptyIsSubsequence(ts[1..]);
      if ts[0] == "" {
        var r := NonEmpty(ts[1..]);
        if r != [] {
          assert r[0] != "";
        }
      }
    }
  }

  /**
   * The parsed tickers are exactly the non-empty normalized fields, in the
   * order they are written: an in-order subsequence that leaves out no
   * non-empty field.
   */
  lemma ParseTickersKeepsOrder(s: string)
    requires s != ""
    ensures IsSubsequence(ParseTickers(Some(s)), Normalized(Split(s, ',')))
    ensures forall k :: 0 <= k < |Split(s, ',')| && Upper(Strip(Split(s, ',')[k])) != ""
              ==> Upper(Strip(Split(s, ',')[k])) in ParseTickers(Some(s))
    ensures multiset(ParseTickers(Some(s))) == multiset(Normalized(Split(s, ',')))["" := 0]
  {
    NonEmptyFilter(Normalized(Split(s, ',')));
  }

  /** The filter of empty entries, in one place: order, every kept entry, multiplicity. */
  lemma NonEmptyFilter(parts: seq<string>)
    ensures IsSubsequence(NonEmpty(parts), parts)
    ensures forall k :: 0 <= k < |parts| && parts[k] != "" ==> parts[k] in NonEmpty(parts)
    ensures multiset(NonEmpty(parts)) == multiset(parts)["" := 0]
  {
    NonEmptyIsSubsequence(parts);
    NonEmptyMultiset(parts);
    forall k | 0 <= k < |parts| && parts[k] != "" ensures parts[k] in NonEmpty(parts) {
      NonEmptyKeepsEvery(parts, k);
    }
  }

  lemma ParseOfFields(s: string, fields: seq<string>)
    requires s != "" && Split(s, ',') == fields
    ensures ParseTickers(Some(s)) == NonEmpty(Normalized(fields))
  {
  }

  lemma SplitTwo(a: string, b: string)
    requires ',' !in a && ',' !in b
    ensures Split(a + "," + b, ',') == [a, b]
  {
    assert a + "," + b == a + [','] + b;
    SplitConcat(a, b, ',');
    SplitWithoutSeparator(a, ',');
    SplitWithoutSeparator(b, ',');
  }

  lemma SplitThree(a: string, b: string, c: string)
    requires ',' !in a && ',' !in b && ',' !in c
    ensures Split(a + "," + b + "," + c, ',') == [a, b, c]
  {
    var bc := b + "," + c;
    assert a + "," + b + "," + c == a + [','] + bc;
    SplitTwo(b, c);
    SplitConcat(a, bc, ',');
    SplitWithoutSeparator(a, ',');
  }

  /** Parsing two comma-separated fields, neither of which holds a comma. */
  lemma ParseTwoFields(a: string, b: string)
    requires ',' !in a && ',' !in b
    ensures ParseTickers(Some(a + "," + b)) == NonEmpty([Upper(Strip(a)), Upper(Strip(b))])
  {
    SplitTwo(a, b);
    ParseOfFields(a + "," + b, [a, b]);
  }

  /** Parsing three comma-separated fields, none of which holds a comma. */
  lemma ParseThreeFields(a: string, b: string, c: string)
    requires ',' !in a && ',' !in b && ',' !in c
    ensures ParseTickers(Some(a + "," + b + "," + c))
         == NonEmpty([Upper(Strip(a)), Upper(Strip(b)), Upper(Strip(c))])
  {
    SplitThree(a, b, c);
    ParseOfFields(a + "," + b + "," + c, [a, b, c]);
    var n := Normalized([a, b, c]);
    assert n == [n[0], n[1], n[2]];
  }

  lemma {:induction false} NonEmptyKeepsNonEmpty(ts: seq<string>)
    requires forall i :: 0 <= i < |ts| ==> ts[i] != ""
    ensures NonEmpty(ts) == ts
  {
    if ts != [] {
      NonEmptyKeepsNonEmpty(ts[1..]);
    }
  }

  /** A ticker between blanks normalizes to the ticker. */
  lemma NormalizesTo(field: string, left: string, t: string, right: string)
    requires field == left + t + right && AllSpace(left) && AllSpace(right)
    requires IsStripped(t) && IsUpper(t)
    ensures Upper(Strip(field)) == t
  {
    StripPadded(left, t, right);
    UpperOfUpper(t);
  }

  lemma ParseThreeFieldsTo(a: string, b: string, c: string, r: seq<string>)
    requires ',' !in a && ',' !in b && ',' !in c
    requires NonEmpty([Upper(Strip(a)), Upper(Strip(b)), Upper(Strip(c))]) == r
    ensures ParseTickers(Some(a + "," + b + "," + c)) == r
  {
    ParseThreeFields(a, b, c);
  }

  /** Three comma-separated fields that normalize to non-empty tickers. */
  lemma ParseThreeTickers(a: string, b: string, c: string, x: string, y: string, z: string)
    requires ',' !in a && ',' !in b && ',' !in c
    requires Upper(Strip(a)) == x && Upper(Strip(b)) == y && Upper(Strip(c)) == z
    requires x != "" && y != "" && z != ""
    ensures ParseTickers(Some(a + "," + b + "," + c)) == [x, y, z]
  {
    var s := a + "," + b + "," + c;
    var l := [x, y, z];
    assert |s| == |a| + |b| + |c| + 2;
    assert forall i :: 0 <= i < |l| ==> l[i] != "" by {
      assert l[0] == x && l[1] == y && l[2] == z;
    }
    SplitThree(a, b, c);
    NormalizedThree(a, b, c, l);
    ParseFieldsTo(s, [a, b, c], l);
  }

  lemma NormalizedThree(a: string, b: string, c: string, l: seq<string>)
    requires l == [Upper(Strip(a)), Upper(Strip(b)), Upper(Strip(c))]
    ensures Normalized([a, b, c]) == l
  {
  }

  /** When every normalized field is non-empty, all of them are the tickers. */
  lemma ParseFieldsTo(s: string, fields: seq<string>, l: seq<string>)
    requires s != "" && Split(s, ',') == fields && Normalized(fields) == l
    requires forall i :: 0 <= i < |l| ==> l[i] != ""
    ensures ParseTickers(Some(s)) == l
  {
    NonEmptyKeepsNonEmpty(l);
  }

  /** Three fields, each a ticker between blanks. */
  lemma ParsePaddedThree(a: string, b: string, c: string,
                         la: string, x: string, ra: string,
                         lb: string, y: string, rb: string,
                         lc: string, z: string, rc: string)
    requires a == la + x + ra && b == lb + y + rb && c == lc + z + rc
    requires ',' !in a && ',' !in b && ',' !in c
    requires AllSpace(la) && AllSpace(ra) && AllSpace(lb) && AllSpace(rb) && AllSpace(lc) && AllSpace(rc)
    requires IsStripped(x) && IsUpper(x) && IsStripped(y) && IsUpper(y) && IsStripped(z) && IsUpper(z)
    requires x != "" && y != "" && z != ""
    ensures ParseTickers(Some(a + "," + b + "," + c)) == [x, y, z]
  {
    NormalizesTo(a, la, x, ra);
    NormalizesTo(b, lb, y, rb);
    NormalizesTo(c, lc, z, rc);
    ParseThreeTickers(a, b, c, x, y, z);
  }

  /** The example of the docstring. */
  lemma ParseTickersDocExample(field: string)
    requires field == "ABEV3, PETR4, VALE3"
    ensures ParseTickers(Some(field)) == ["ABEV3", "PETR4", "VALE3"]
  {
    var x, y, z := "ABEV3", "PETR4", "VALE3";
    var a, b, c := x, " " + y, " " + z;
    assert field == a + "," + b + "," + c;
    PlainTicker(x);
    PlainTicker(y);
    PlainTicker(z);
    OneBlank(" ");
    PaddedFields(a, b, c, x, y, z);
  }

  lemma OneBlank(s: string)
    requires s == " "
    ensures AllSpace(s) && ',' !in s
  {
    assert s[0] == ' ';
  }

  /** Three tickers, the last two behind one blank each. */
  lemma PaddedFields(a: string, b: string, c: string, x: string, y: string, z: string)
    requires AllSpace(" ") && ',' !in " "
    requires a == x && b == " " + y && c == " " + z
    requires x != "" && ',' !in x && IsStripped(x) && IsUpper(x)
    requires y != "" && ',' !in y && IsStripped(y) && IsUpper(y)
    requires z != "" && ',' !in z && IsStripped(z) && IsUpper(z)
    ensures ParseTickers(Some(a + "," + b + "," + c)) == [x, y, z]
  {
    assert a == "" + x + "" && b == " " + y + "" && c == " " + z + "";
    ParsePaddedThree(a, b, c, "", x, "", " ", y, "", " ", z, "");
  }

  /** Lower case and blanks around a field are normalized away. */
  lemma ParseTickersNormalizes(field: string)
    requires field == "ABEV3, petr4 ,VALE3"
    ensures ParseTickers(Some(field)) == ["ABEV3", "PETR4", "VALE3"]
  {
    var a, m, c := "ABEV3", "petr4", "VALE3";
    var b := " " + m + " ";
    assert field == a + "," + b + "," + c;
    PlainTicker(a);
    PlainTicker(c);
    OneBlank(" ");
    LowerTicker(m);
    ParseAroundField(a, b, c, " ", m, " ");
    UpperOfLower(m);
  }

  lemma LowerTicker(m: string)
    requires m == "petr4"
    ensures m != "" && ',' !in m && IsStripped(m)
  {
    assert |m| == 5;
    assert forall i :: 0 <= i < 5 ==> 'a' <= m[i] <= 'z' || '0' <= m[i] <= '9';
  }

  lemma UpperOfLower(m: string)
    requires m == "petr4"
    ensures Upper(m) == "PETR4"
  {
    var u := Upper(m);
    assert u[0] == 'P' && u[1] == 'E' && u[2] == 'T' && u[3] == 'R' && u[4] == '4';
  }

  /** Two tickers around a field `lb + m + rb` that normalizes to `Upper(m)`. */
  lemma ParseAroundField(a: string, b: string, c: string, lb: string, m: string, rb: string)
    requires ',' !in a && ',' !in b && ',' !in c
    requires a != "" && IsStripped(a) && IsUpper(a) && c != "" && IsStripped(c) && IsUpper(c)
    requires b == lb + m + rb && AllSpace(lb) && AllSpace(rb) && IsStripped(m) && m != ""
    ensures ParseTickers(Some(a + "," + b + "," + c)) == [a, Upper(m), c]
  {
    var y := Upper(m);
    assert Upper(Strip(b)) == y && y != "" by {
      StripPadded(lb, m, rb);
      assert |y| == |m|;
    }
    assert Upper(Strip(a)) == a by { NormalizesTo(a, "", a, ""); }
    assert Upper(Strip(c)) == c by { NormalizesTo(c, "", c, ""); }
    ParseThreeTickers(a, b, c, a, y, c);
  }

  /** Two comma-separated fields that normalize to non-empty tickers. */
  lemma ParseTwoTickers(a: string, b: string, x: string, y: string)
    requires ',' !in a && ',' !in b
    requires Upper(Strip(a)) == x && Upper(Strip(b)) == y
    requires x != "" && y != ""
    ensures ParseTickers(Some(a + "," + b)) == [x, y]
  {
    var l := [x, y];
    NonEmptyKeepsNonEmpty(l);
    assert [Upper(Strip(a)), Upper(Strip(b))] == l;
    ParseTwoFields(a, b);
  }

  /** A ticker written twice is listed twice. */
  lemma ParseRepeated(t: string)
    requires t != "" && ',' !in t && IsStripped(t) && IsUpper(t)
    ensures ParseTickers(Some(t + "," + t)) == [t, t]
  {
    NormalizesTo(t, "", t, "");
    ParseTwoTickers(t, t, t, t);
  }

  /** Duplicates are kept. */
  lemma ParseTickersKeepsDuplicates(field: string)
    requires field == "PETR4,PETR4"
    ensures ParseTickers(Some(field)) == ["PETR4", "PETR4"]
  {
    var t := "PETR4";
    assert field == t + "," + t;
    PlainTicker(t);
    ParseRepeated(t);
  }

  lemma PlainTicker(t: string)
    requires t == "PETR4" || t == "ABEV3" || t == "VALE3"
    ensures t != "" && ',' !in t && IsStripped(t) && IsUpper(t)
  {
    assert |t| == 5;
    assert forall i :: 0 <= i < 5 ==> 'A' <= t[i] <= 'Z' || '0' <= t[i] <= '9';
  }

  /** Fields that are all blank yield no ticker. */
  lemma ParseBlankThree(a: string, b: string, c: string)
    requires ',' !in a && ',' !in b && ',' !in c
    requires AllSpace(a) && AllSpace(b) && AllSpace(c)
    ensures ParseTickers(Some(a + "," + b + "," + c)) == []
  {
    NormalizesTo(a, a, "", "");
    NormalizesTo(b, b, "", "");
    NormalizesTo(c, c, "", "");
    NonEmptyOfBlanks([Upper(Strip(a)), Upper(Strip(b)), Upper(Strip(c))]);
    ParseThreeFieldsTo(a, b, c, []);
  }

  /** A field of blanks and commas holds no ticker. */
  lemma ParseTickersDropsBlanks(field: string)
    requires field == " , ,"
    ensures ParseTickers(Some(field)) == []
  {
    var a, c := " ", "";
    assert field == a + "," + a + "," + c;
    ParseBlankThree(a, a, c);
  }
}
