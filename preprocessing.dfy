/**
 * `DataPreprocessor`: the canonical six-slot network vector, the IP-address
 * splitter and the (empty) log preprocessing.
 */
module Preprocessing {

  import opened Wrappers
  import opened Values
  import Decimal

  /** `feature_columns`, in the order the vector lists them. */
  const FeatureColumns: seq<string> :=
    ["bytes_sent", "bytes_received", "packet_count", "duration", "port_number", "protocol_type"]

  /** One slot of the vector: `float(data[col])` when the column is present, `0.0` when it is not. */
  function Slot(data: Document, col: string): Result<real> {
    if col in data then ToFloat(data[col]) else Ok(0.0)
  }

  /** The vector over `cols`, built one column at a time; the first bad column raises. */
  function PreprocessColumns(data: Document, cols: seq<string>): (r: Result<seq<real>>)
    ensures r.Ok? <==> forall i :: 0 <= i < |cols| ==> Slot(data, cols[i]).Ok?
    ensures r.Err? ==> r.error == ValidationError
    ensures r.Ok? ==> |r.value| == |cols|
    ensures r.Ok? ==> forall i :: 0 <= i < |cols| ==> r.value[i] == Slot(data, cols[i]).value
  {
    if cols == [] then Ok([])
    else
      match PreprocessColumns(data, cols[..|cols| - 1])
      case Err(e) => Err(e)
      case Ok(prefix) =>
        match Slot(data, cols[|cols| - 1])
        case Err(e) => Err(e)
        case Ok(x) => Ok(prefix + [x])
  }

  /**
   * `preprocess_network_data`: exactly six entries in the order of
   * `FeatureColumns`; an absent field gives `0.0` and never an error; a present
   * field gives `float(value)`, and a value `float` rejects raises.
   */
  method PreprocessNetworkData(data: Document) returns (r: Result<seq<real>>)
    ensures r == PreprocessColumns(data, FeatureColumns)
    ensures r.Ok? <==> forall c :: c in FeatureColumns && c in data ==> ToFloat(data[c]).Ok?
    ensures r.Err? ==> r.error == ValidationError
    ensures r.Ok? ==> |r.value| == 6
    ensures r.Ok? ==> forall i :: 0 <= i < 6 && FeatureColumns[i] !in data ==> r.value[i] == 0.0
    ensures r.Ok? ==> forall i :: 0 <= i < 6 && FeatureColumns[i] in data ==> r.value[i] == ToFloat(data[FeatureColumns[i]]).value
  {
    var features: seq<real> := [];
    for i := 0 to |FeatureColumns|
      invariant PreprocessColumns(data, FeatureColumns[..i]) == Ok(features)
    {
      var col := FeatureColumns[i];
      assert FeatureColumns[..i + 1][..i] == FeatureColumns[..i];
      if col in data {
        var x := ToFloat(data[col]);
        if x.Err? {
          r := Err(x.error);
          assert !Slot(data, FeatureColumns[i]).Ok?;
          return;
        }
        features := features + [x.value];
      } else {
        features := features + [0.0];
      }
    }
    assert FeatureColumns[..|FeatureColumns|] == FeatureColumns;
    r := Ok(features);
  }

  /** Keys other than the six columns do not affect the vector. */
  lemma PreprocessReadsOnlyColumns(d1: Document, d2: Document)
    requires forall c :: c in FeatureColumns ==> (c in d1 <==> c in d2)
    requires forall c :: c in FeatureColumns && c in d1 ==> d1[c] == d2[c]
    ensures PreprocessColumns(d1, FeatureColumns) == PreprocessColumns(d2, FeatureColumns)
  {
    var r1, r2 := PreprocessColumns(d1, FeatureColumns), PreprocessColumns(d2, FeatureColumns);
    assert forall i :: 0 <= i < |FeatureColumns| ==> Slot(d1, FeatureColumns[i]) == Slot(d2, FeatureColumns[i]);
    if r1.Ok? {
      assert r1.value == r2.value;
    }
  }

  /**
   * Totality: when every column that is present holds a number, the vector is
   * produced, with zeros in the positions of the missing columns.
   */
  lemma PreprocessTotalOnNumbers(data: Document)
    requires forall c :: c in FeatureColumns && c in data ==> IsNumber(data[c])
    ensures PreprocessColumns(data, FeatureColumns).Ok?
    ensures forall i :: 0 <= i < 6 ==>
      PreprocessColumns(data, FeatureColumns).value[i]
        == if FeatureColumns[i] in data then Number(data[FeatureColumns[i]]) else 0.0
  {
    assert forall i :: 0 <= i < 6 ==> Slot(data, FeatureColumns[i]).Ok?;
  }

  /** `preprocess_log_data`: a placeholder that maps every log entry to `{}`. */
  function PreprocessLogData(logEntry: string): (r: Document)
    ensures r == map[]
  {
    map[]
  }

  /** `int(c)` for each part, in order; the first part `int` rejects raises. */
  function ParseAll(parts: seq<string>): (r: Result<seq<int>>)
    ensures r.Ok? <==> forall i :: 0 <= i < |parts| ==> Decimal.ParseInt(parts[i]).Some?
    ensures r.Err? ==> r.error == ValidationError
    ensures r.Ok? ==> |r.value| == |parts|
    ensures r.Ok? ==> forall i :: 0 <= i < |parts| ==> r.value[i] == Decimal.ParseInt(parts[i]).value
  {
    if forall i :: 0 <= i < |parts| ==> Decimal.ParseInt(parts[i]).Some? then
      Ok(seq(|parts|, i requires 0 <= i < |parts| => Decimal.ParseInt(parts[i]).value))
    else Err(ValidationError)
  }

  /** Every part `int()` accepts consists of characters `int()` reads. */
  lemma PartsHoldIntChars(parts: seq<string>)
    requires forall i :: 0 <= i < |parts| ==> Decimal.ParseInt(parts[i]).Some?
    ensures forall i, j :: 0 <= i < |parts| && 0 <= j < |parts[i]| ==> Decimal.IntChar(parts[i][j])
  {
    forall i | 0 <= i < |parts| {
      Decimal.ParseIntChars(parts[i]);
    }
  }

  /**
   * `extract_ip_features`: `list(map(int, ip.split('.')))`, one integer per
   * dot-separated part, in order, with no check on their count or range.
   */
  function ExtractIpFeatures(ip: string): (r: Result<seq<int>>)
    ensures r.Ok? ==> |r.value| == |Decimal.Split(ip)| >= 1
    ensures r.Ok? ==> forall k :: 0 <= k < |ip| ==> ip[k] == '.' || Decimal.IntChar(ip[k])
  {
    var r := ParseAll(Decimal.Split(ip));
    if r.Ok? then
      PartsHoldIntChars(Decimal.Split(ip));
      Decimal.IntCharsOfSplit(ip);
      r
    else r
  }

  /**
   * A character that is neither a dot nor one `int()` reads anywhere in the
   * address makes `extract_ip_features` raise: `"10.0.0.1a"` is an error.
   */
  lemma IpWithForeignCharacterRaises(ip: string, k: nat)
    requires k < |ip| && ip[k] != '.' && !Decimal.IntChar(ip[k])
    ensures ExtractIpFeatures(ip) == Err(ValidationError)
  {
  }

  /** The decimal strings of a list of ints (`[str(n) for n in ns]`). */
  function Render(ns: seq<int>): (parts: seq<string>)
    ensures |parts| == |ns|
  {
    seq(|ns|, i requires 0 <= i < |ns| => Decimal.IntToString(ns[i]))
  }

  /** A part `int` accepts and that is written as `str` writes its value. */
  predicate Canonical(part: string) {
    Decimal.ParseInt(part).Some? && Decimal.IntToString(Decimal.ParseInt(part).value) == part
  }

  lemma NoDotInIntToString(n: int)
    ensures forall j :: 0 <= j < |Decimal.IntToString(n)| ==> Decimal.IntToString(n)[j] != '.'
  {
    var s := Decimal.IntToString(n);
    if n < 0 {
      forall j | 0 <= j < |s| ensures s[j] != '.' {
        if j > 0 {
          assert s[j] == Decimal.NatToString(-n)[j - 1];
        }
      }
    }
  }

  /** Round trip from numbers: the dotted decimal form of any ints parses back to them. */
  lemma IpFeaturesOfDottedForm(ns: seq<int>)
    requires |ns| >= 1
    ensures ExtractIpFeatures(Decimal.Join(Render(ns))) == Ok(ns)
  {
    var parts := Render(ns);
    forall i | 0 <= i < |parts| ensures forall j :: 0 <= j < |parts[i]| ==> parts[i][j] != '.' {
      NoDotInIntToString(ns[i]);
    }
    Decimal.SplitJoin(parts);
    forall i | 0 <= i < |parts| ensures Decimal.ParseInt(parts[i]) == Some(ns[i]) {
      Decimal.ParseIntOfIntToString(ns[i]);
    }
    var r := ExtractIpFeatures(Decimal.Join(parts));
    assert r.value == ns;
  }

  /**
   * Round trip from text: when every part is canonical decimal, joining the
   * returned ints' decimal strings with dots reproduces the input.
   */
  lemma DottedFormOfIpFeatures(ip: string)
    requires forall i :: 0 <= i < |Decimal.Split(ip)| ==> Canonical(Decimal.Split(ip)[i])
    ensures ExtractIpFeatures(ip).Ok?
    ensures Decimal.Join(Render(ExtractIpFeatures(ip).value)) == ip
  {
    var parts := Decimal.Split(ip);
    var ns := ExtractIpFeatures(ip).value;
    assert Render(ns) == parts;
    Decimal.JoinSplit(ip);
  }
}
