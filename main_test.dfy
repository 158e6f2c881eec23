/** The golden-file naming helper of the example test suite. */
module MainTest {
  import Strings

  /**
   * APITestName: the endpoint without its leading character and with every
   * '/' turned into '_', the status code in decimal, then the descriptions,
   * all joined with '_'. Go would panic on an empty endpoint.
   */
  function APITestName(endpoint: string, code: int, description: seq<string>): string
    requires |endpoint| > 0
  {
    Strings.Join([Strings.ReplaceAll(endpoint[1..], '/', '_'), Strings.Itoa(code)] + description, "_")
  }

  /** The name is the endpoint part, '_', the code, then each description preceded by '_'. */
  lemma APITestNameParts(endpoint: string, code: int, description: seq<string>)
    requires |endpoint| > 0
    ensures APITestName(endpoint, code, description)
         == Strings.ReplaceAll(endpoint[1..], '/', '_') + "_" + Strings.Itoa(code) + Strings.Prefixed(description, "_")
  {
    var parts := [Strings.ReplaceAll(endpoint[1..], '/', '_'), Strings.Itoa(code)] + description;
    Strings.JoinIsHeadThenPrefixed(parts, "_");
    assert parts[1..] == [Strings.Itoa(code)] + description;
    assert ([Strings.Itoa(code)] + description)[1..] == description;
  }

  /** Without '/' in the descriptions, the name has no '/' and stays one file inside testdata/. */
  lemma APITestNameFlat(endpoint: string, code: int, description: seq<string>)
    requires |endpoint| > 0
    requires forall i :: 0 <= i < |description| ==> '/' !in description[i]
    ensures '/' !in APITestName(endpoint, code, description)
  {
    var parts := [Strings.ReplaceAll(endpoint[1..], '/', '_'), Strings.Itoa(code)] + description;
    var first := Strings.ReplaceAll(endpoint[1..], '/', '_');
    assert forall i :: 0 <= i < |first| ==> first[i] != '/';
    assert forall i :: 0 <= i < |Strings.Itoa(code)| ==> Strings.Itoa(code)[i] != '/';
    assert forall i :: 0 <= i < |parts| ==> '/' !in parts[i] by {
      forall i | 0 <= i < |parts|
        ensures '/' !in parts[i]
      {
        if i >= 2 {
          assert parts[i] == description[i - 2];
        }
      }
    }
    Strings.JoinAvoids(parts, "_", '/');
  }

  /** Two tests of one endpoint that expect different status codes get different names. */
  lemma APITestNameSeparatesCodes(endpoint: string, code: int, other: int, description: seq<string>)
    requires |endpoint| > 0
    requires APITestName(endpoint, code, description) == APITestName(endpoint, other, description)
    ensures code == other
  {
    APITestNameParts(endpoint, code, description);
    APITestNameParts(endpoint, other, description);
    var head := Strings.ReplaceAll(endpoint[1..], '/', '_') + "_";
    var rest := Strings.Prefixed(description, "_");
    var a := head + Strings.Itoa(code) + rest;
    var b := head + Strings.Itoa(other) + rest;
    assert a == b;
    assert a[|head|..|a| - |rest|] == Strings.Itoa(code);
    assert b[|head|..|b| - |rest|] == Strings.Itoa(other);
    assert |a| == |b|;
    Strings.ItoaInjective(code, other);
  }

  // The lemmas below take their literals through `requires x == literal`; with the literals
  // as arguments the verifier unfolds the recursive functions on them eagerly and runs out of resource.

  /** The health endpoint without its leading '/' and with '/' turned into '_'. */
  lemma HealthEndpointPart(path: string)
    requires path == "v1/health"
    ensures Strings.ReplaceAll(path, '/', '_') == "v1_health"
  {
    var r := Strings.ReplaceAll(path, '/', '_');
    assert forall i :: 0 <= i < |r| ==> r[i] == "v1_health"[i];
  }

  /** 200 in decimal. */
  lemma OkInDecimal(code: int)
    requires code == 200
    ensures Strings.Itoa(code) == "200"
  {
    assert Strings.Digits(code / 100) == "2";
    assert Strings.Digits(code / 10) == "20";
  }

  /** The golden name of TestHealthEndpoint's first case: v1_health_200. */
  lemma HealthTestName(endpoint: string, code: int)
    requires endpoint == "/v1/health" && code == 200
    ensures APITestName(endpoint, code, []) == "v1_health_200"
  {
    assert endpoint[1..] == "v1/health";
    HealthEndpointPart(endpoint[1..]);
    OkInDecimal(code);
    APITestNameParts(endpoint, code, []);
  }

  /** The example name the doc comment of APITestName gives: v1_health_200_success. */
  lemma HealthSuccessTestName(endpoint: string, code: int, description: seq<string>)
    requires endpoint == "/v1/health" && code == 200 && description == ["success"]
    ensures APITestName(endpoint, code, description) == "v1_health_200_success"
  {
    assert endpoint[1..] == "v1/health";
    HealthEndpointPart(endpoint[1..]);
    OkInDecimal(code);
    APITestNameParts(endpoint, code, description);
    assert Strings.Prefixed(description, "_") == "_success" by {
      assert description[1..] == [];
    }
  }
}
