/**
 * Twilio webhook signatures (src/communication/whatsapp/webhook_validation.rs): the signed data
 * string is the URL followed by every form parameter's key and value in ascending key order.
 * Base64 decoding and HMAC-SHA1 are inputs: `decode` gives the bytes of a base64 text (None when
 * it is not valid base64) and `hmac(key, data)` gives the MAC of `data` under `key`.
 */
module WebhookValidation {

  import opened Wrappers
  import opened Text

  // ---------------------------------------------------------------- key order

  /** The order of Rust's `String`: lexicographic on UTF-8 bytes, which is code-point order. */
  predicate StrLess(a: string, b: string)
    decreases |a|
  {
    if |a| == 0 then |b| > 0
    else |b| > 0 && (a[0] < b[0] || (a[0] == b[0] && StrLess(a[1..], b[1..])))
  }

  lemma {:induction false} StrLessIrreflexive(a: string)
    ensures !StrLess(a, a)
    decreases |a|
  {
    if |a| > 0 {
      StrLessIrreflexive(a[1..]);
    }
  }

  lemma {:induction false} StrLessTransitive(a: string, b: string, c: string)
    requires StrLess(a, b) && StrLess(b, c)
    ensures StrLess(a, c)
    decreases |a|
  {
    if |a| > 0 && a[0] == b[0] && b[0] == c[0] {
      StrLessTransitive(a[1..], b[1..], c[1..]);
    }
  }

  lemma {:induction false} StrLessTotal(a: string, b: string)
    requires a != b
    ensures StrLess(a, b) || StrLess(b, a)
    decreases |a|
  {
    if |a| > 0 && |b| > 0 && a[0] == b[0] {
      assert a == [a[0]] + a[1..] && b == [b[0]] + b[1..];
      StrLessTotal(a[1..], b[1..]);
    }
  }

  function KeySet(ks: seq<string>): set<string>
  {
    set k | k in ks
  }

  predicate StrictlySorted(ks: seq<string>)
  {
    forall i, j :: 0 <= i < j < |ks| ==> StrLess(ks[i], ks[j])
  }

  /** Two strictly ascending sequences of the same keys are the same sequence. */
  lemma {:induction false} SortedUnique(a: seq<string>, b: seq<string>)
    requires StrictlySorted(a) && StrictlySorted(b)
    requires KeySet(a) == KeySet(b)
    ensures a == b
    decreases |a|
  {
    DistinctCardinality(a);
    DistinctCardinality(b);
    if |a| > 0 {
      // The first element of each is the least key of the common set.
      assert b[0] in KeySet(a);
      assert a[0] in KeySet(b);
      if a[0] != b[0] {
        var i :| 0 <= i < |a| && a[i] == b[0];
        var j :| 0 <= j < |b| && b[j] == a[0];
        assert StrLess(a[0], a[i]);
        assert StrLess(b[0], b[j]);
        StrLessTransitive(a[0], b[0], a[0]);
        StrLessIrreflexive(a[0]);
      }
      forall k | k in a[1..]
        ensures k in b[1..]
      {
        var i :| 1 <= i < |a| && a[i] == k;
        assert k in KeySet(b);
        var j :| 0 <= j < |b| && b[j] == k;
        if j == 0 {
          assert StrLess(a[0], a[i]);
          StrLessIrreflexive(k);
        }
        assert b[1..][j - 1] == k;
      }
      forall k | k in b[1..]
        ensures k in a[1..]
      {
        var j :| 1 <= j < |b| && b[j] == k;
        assert k in KeySet(a);
        var i :| 0 <= i < |a| && a[i] == k;
        if i == 0 {
          assert StrLess(b[0], b[j]);
          StrLessIrreflexive(k);
        }
        assert a[1..][i - 1] == k;
      }
      assert KeySet(a[1..]) == KeySet(b[1..]);
      SortedUnique(a[1..], b[1..]);
      assert a == [a[0]] + a[1..] && b == [b[0]] + b[1..];
    }
  }

  // ---------------------------------------------------------------- the data string

  /** Each key followed by its value, in the order of `ks`. */
  function Pairs(params: map<string, string>, ks: seq<string>): (r: string)
    requires forall i :: 0 <= i < |ks| ==> ks[i] in params
    decreases |ks|
  {
    if |ks| == 0 then [] else Pairs(params, ks[..|ks| - 1]) + ks[|ks| - 1] + params[ks[|ks| - 1]]
  }

  /** The keys of a map in ascending order, which exist and are unique. */
  ghost function SortedKeys(params: map<string, string>): (ks: seq<string>)
    ensures StrictlySorted(ks)
    ensures KeySet(ks) == params.Keys
    ensures |ks| == |params|
  {
    SortedKeysExist(params.Keys);
    var ks :| StrictlySorted(ks) && KeySet(ks) == params.Keys;
    DistinctCardinality(ks);
    ks
  }

  /** The data string Twilio signs. */
  ghost function DataString(url: string, params: map<string, string>): string
  {
    url + Pairs(params, SortedKeys(params))
  }

  /** A strictly ascending sequence has no repeats, so its length is the number of its keys. */
  lemma {:induction false} DistinctCardinality(ks: seq<string>)
    requires StrictlySorted(ks)
    ensures |KeySet(ks)| == |ks|
    decreases |ks|
  {
    if |ks| > 0 {
      var rest := ks[1..];
      assert StrictlySorted(rest);
      DistinctCardinality(rest);
      assert ks[0] !in rest by {
        if ks[0] in rest {
          var j :| 0 <= j < |rest| && rest[j] == ks[0];
          assert StrLess(ks[0], ks[j + 1]);
          StrLessIrreflexive(ks[0]);
        }
      }
      assert KeySet(ks) == {ks[0]} + KeySet(rest);
    }
  }

  /** `ks` with `k` put in its place. */
  lemma {:induction false} InsertKeepsSorted(ks: seq<string>, k: string, i: nat)
    requires StrictlySorted(ks) && i <= |ks|
    requires forall j :: 0 <= j < i ==> StrLess(ks[j], k)
    requires i < |ks| ==> StrLess(k, ks[i])
    ensures StrictlySorted(ks[..i] + [k] + ks[i..])
  {
    var r := ks[..i] + [k] + ks[i..];
    forall a, b | 0 <= a < b < |r|
      ensures StrLess(r[a], r[b])
    {
      if b < i {
        assert r[a] == ks[a] && r[b] == ks[b];
      } else if b == i {
        assert r[a] == ks[a] && r[b] == k;
      } else if a == i {
        assert r[b] == ks[b - 1];
        if b - 1 > i {
          StrLessTransitive(k, ks[i], ks[b - 1]);
        }
      } else if a < i {
        assert r[a] == ks[a] && r[b] == ks[b - 1];
      } else {
        assert r[a] == ks[a - 1] && r[b] == ks[b - 1];
      }
    }
  }

  /** Every finite set of keys has an ascending enumeration. */
  lemma {:induction false} SortedKeysExist(keys: set<string>)
    ensures exists ks :: StrictlySorted(ks) && KeySet(ks) == keys
    decreases |keys|
  {
    if keys == {} {
      assert StrictlySorted([]) && KeySet([]) == keys;
    } else {
      var k :| k in keys;
      SortedKeysExist(keys - {k});
      var ks :| StrictlySorted(ks) && KeySet(ks) == keys - {k};
      assert k !in KeySet(ks);
      var ks' := PlaceKey(ks, k);
      assert KeySet(ks) + {k} == keys;
      assert StrictlySorted(ks') && KeySet(ks') == keys;
    }
  }

  /** `k` inserted at its place in the ascending `ks`: still ascending, with `k` added to its keys. */
  lemma PlaceKey(ks: seq<string>, k: string) returns (r: seq<string>)
    requires StrictlySorted(ks) && k !in ks
    ensures StrictlySorted(r) && KeySet(r) == KeySet(ks) + {k}
  {
    var i := Position(ks, k);
    InsertKeepsSorted(ks, k, i);
    InsertKeySet(ks, k, i);
    r := ks[..i] + [k] + ks[i..];
  }

  lemma InsertKeySet(ks: seq<string>, k: string, i: nat)
    requires i <= |ks|
    ensures KeySet(ks[..i] + [k] + ks[i..]) == KeySet(ks) + {k}
  {
    assert ks == ks[..i] + ks[i..];
    assert KeySet(ks) == KeySet(ks[..i]) + KeySet(ks[i..]);
  }

  /** Where `k`, which is not in `ks`, belongs in the ascending `ks`. */
  function Position(ks: seq<string>, k: string): (i: nat)
    requires StrictlySorted(ks) && k !in ks
    ensures i <= |ks|
    ensures forall j :: 0 <= j < i ==> StrLess(ks[j], k)
    ensures i < |ks| ==> StrLess(k, ks[i])
    decreases |ks|
  {
    if |ks| == 0 then 0
    else if StrLess(ks[|ks| - 1], k) then
      assert forall j :: 0 <= j < |ks| - 1 ==> StrLess(ks[j], ks[|ks| - 1]);
      assert forall j :: 0 <= j < |ks| - 1 ==> StrLess(ks[j], k) by {
        forall j | 0 <= j < |ks| - 1 {
          StrLessTransitive(ks[j], ks[|ks| - 1], k);
        }
      }
      |ks|
    else
      StrLessTotal(ks[|ks| - 1], k);
      assert StrictlySorted(ks[..|ks| - 1]);
      var i := Position(ks[..|ks| - 1], k);
      assert StrLess(k, ks[|ks| - 1]);
      assert forall j :: 0 <= j < i ==> ks[j] == ks[..|ks| - 1][j];
      assert i < |ks| - 1 ==> ks[i] == ks[..|ks| - 1][i];
      i
  }

  /** Puts a new key into its place in an ascending sequence of keys. */
  method InsertSorted(ks: seq<string>, k: string) returns (r: seq<string>)
    requires StrictlySorted(ks) && k !in ks
    ensures StrictlySorted(r)
    ensures KeySet(r) == KeySet(ks) + {k}
  {
    var i := 0;
    while i < |ks| && StrLess(ks[i], k)
      invariant 0 <= i <= |ks|
      invariant forall j :: 0 <= j < i ==> StrLess(ks[j], k)
    {
      i := i + 1;
    }
    if i < |ks| {
      StrLessTotal(ks[i], k);
    }
    InsertKeepsSorted(ks, k, i);
    InsertKeySet(ks, k, i);
    r := ks[..i] + [k] + ks[i..];
  }

  /**
   * Collects the parameter keys in the map's own (unspecified) iteration order and sorts them;
   * whatever that order, the result is the ascending enumeration of the keys.
   */
  method SortedParamKeys(params: map<string, string>) returns (ks: seq<string>)
    ensures ks == SortedKeys(params)
  {
    ks := [];
    var rest := params.Keys;
    while rest != {}
      invariant StrictlySorted(ks)
      invariant KeySet(ks) + rest == params.Keys
      invariant KeySet(ks) !! rest
      decreases |rest|
    {
      var k :| k in rest;
      ks := InsertSorted(ks, k);
      rest := rest - {k};
    }
    SortedUnique(ks, SortedKeys(params));
  }

  /** `build_twilio_data_string`: the URL, then key and value of each parameter by ascending key. */
  method BuildTwilioDataString(url: string, params: map<string, string>) returns (data: string)
    ensures data == DataString(url, params)
  {
    var ks := SortedParamKeys(params);
    data := url;
    var i := 0;
    while i < |ks|
      invariant 0 <= i <= |ks|
      invariant data == url + Pairs(params, ks[..i])
    {
      assert ks[..i + 1][..i] == ks[..i];
      data := data + ks[i] + params[ks[i]];
      i := i + 1;
    }
    assert ks[..|ks|] == ks;
  }

  /** The data string starts with the URL; with no parameters it is exactly the URL. */
  lemma DataStringStartsWithUrl(url: string, params: map<string, string>)
    ensures StartsWith(DataString(url, params), url)
    ensures params == map[] ==> DataString(url, params) == url
  {
    assert (url + Pairs(params, SortedKeys(params)))[..|url|] == url;
  }

  /** The UTF-8 byte count of every key and value of `ks`. */
  function PairBytes(params: map<string, string>, ks: seq<string>): nat
    requires forall i :: 0 <= i < |ks| ==> ks[i] in params
    decreases |ks|
  {
    if |ks| == 0 then 0
    else PairBytes(params, ks[..|ks| - 1]) + Utf8Len(ks[|ks| - 1]) + Utf8Len(params[ks[|ks| - 1]])
  }

  lemma {:induction false} PairsLength(params: map<string, string>, ks: seq<string>)
    requires forall i :: 0 <= i < |ks| ==> ks[i] in params
    ensures Utf8Len(Pairs(params, ks)) == PairBytes(params, ks)
    decreases |ks|
  {
    if |ks| > 0 {
      var last := ks[|ks| - 1];
      PairsLength(params, ks[..|ks| - 1]);
      Utf8LenAppend(Pairs(params, ks[..|ks| - 1]) + last, params[last]);
      Utf8LenAppend(Pairs(params, ks[..|ks| - 1]), last);
    }
  }

  /** The data string's byte length is the URL's plus every key's and value's. */
  lemma DataStringLength(url: string, params: map<string, string>)
    ensures Utf8Len(DataString(url, params)) == Utf8Len(url) + PairBytes(params, SortedKeys(params))
  {
    PairsLength(params, SortedKeys(params));
    Utf8LenAppend(url, Pairs(params, SortedKeys(params)));
  }

  const ExampleUrl := "https://example.com/webhook"
  const ExampleFrom := "whatsapp:+1234567890"
  const ExampleBody := "Hello World"

  /** The two-parameter example: "Body" sorts before "From", whatever order they were added in. */
  lemma TwoParameterExample()
    ensures DataString(ExampleUrl, map["From" := ExampleFrom, "Body" := ExampleBody])
         == ExampleUrl + "Body" + ExampleBody + "From" + ExampleFrom
  {
    var params := map["From" := ExampleFrom, "Body" := ExampleBody];
    var ks := ["Body", "From"];
    assert StrLess("Body", "From");
    assert KeySet(ks) == params.Keys;
    SortedUnique(ks, SortedKeys(params));
    assert ks[..1] == ["Body"];
    assert Pairs(params, ks[..1]) == "Body" + ExampleBody;
  }

  // ---------------------------------------------------------------- signature check

  type Bytes = seq<bv8>

  /** The signature text after dropping one optional "sha1=" prefix. */
  function SignatureText(signature: string): (r: string)
  {
    StripPrefix(signature, "sha1=").GetOr(signature)
  }

  /** Whether the signature is the MAC of the data string under the auth token. */
  ghost predicate Validates(signature: string, url: string, params: map<string, string>, authToken: string,
                            decode: string -> Option<Bytes>, hmac: (string, string) -> Bytes)
  {
    var sig := decode(SignatureText(signature));
    sig.Some? && sig.value == hmac(authToken, DataString(url, params))
  }

  /** `validate_twilio_signature`. Creating the MAC from a key of any length cannot fail. */
  method ValidateTwilioSignature(signature: string, url: string, params: map<string, string>, authToken: string,
                                 decode: string -> Option<Bytes>, hmac: (string, string) -> Bytes)
    returns (valid: bool)
    ensures valid <==> Validates(signature, url, params, authToken, decode, hmac)
  {
    var text := SignatureText(signature);
    var expected := decode(text);
    if expected.None? {
      return false;
    }
    var data := BuildTwilioDataString(url, params);
    valid := expected.value == hmac(authToken, data);
  }

  /**
   * A signature whose text (after the optional prefix) is not base64 never validates, and a
   * signature validates with the "sha1=" prefix exactly when it validates without it.
   */
  lemma SignaturePrefixOptional(signature: string, url: string, params: map<string, string>, authToken: string,
                                decode: string -> Option<Bytes>, hmac: (string, string) -> Bytes)
    ensures decode(SignatureText(signature)).None? ==> !Validates(signature, url, params, authToken, decode, hmac)
    ensures !StartsWith(signature, "sha1=") ==>
              (Validates("sha1=" + signature, url, params, authToken, decode, hmac)
               <==> Validates(signature, url, params, authToken, decode, hmac))
  {
    assert ("sha1=" + signature)[..5] == "sha1=";
    assert ("sha1=" + signature)[5..] == signature;
  }
}
