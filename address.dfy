/** The daemon address normalisation done when a client is created: a
    scheme is added when the address does not start with "http", and the RPC
    path is added when the address does not end with it. */
module Address {

  const SchemePrefix: string := "http"
  const DefaultScheme: string := "http://"
  const RpcPath: string := "/transmission/rpc"

  predicate HasPrefix(s: string, p: string) {
    |p| <= |s| && s[..|p|] == p
  }

  predicate HasSuffix(s: string, p: string) {
    |p| <= |s| && s[|s| - |p|..] == p
  }

  /** Prepending the default scheme creates the RPC path suffix in exactly
      one case: the address is the path without its leading '/', whose slash
      is then supplied by the last character of "http://". */
  lemma SchemeKeepsSuffix(a: string)
    ensures HasSuffix(DefaultScheme + a, RpcPath) <==> HasSuffix(a, RpcPath) || a == RpcPath[1..]
  {
    var s := DefaultScheme + a;
    if |a| >= |RpcPath| {
      assert s[|s| - |RpcPath|..] == a[|a| - |RpcPath|..];
      assert a != RpcPath[1..];
    } else {
      if a == RpcPath[1..] {
        assert s[|s| - |RpcPath|..] == RpcPath;
      }
      if HasSuffix(s, RpcPath) {
        // The suffix starts at index j inside "http://"; it needs a '/' at j
        // and a 't' at j + 1, which leaves only j == 6, where the rest of
        // the suffix is the whole address.
        var j := |s| - |RpcPath|;
        assert 0 <= j < |DefaultScheme|;
        assert s[j] == RpcPath[0] == '/';
        assert s[j + 1] == RpcPath[1] == 't';
        assert j == 6;
        assert a == s[|DefaultScheme|..];
        assert s[|DefaultScheme|..] == s[j..][1..];
      }
    }
  }

  /** The address a new client talks to. */
  function Normalize(address: string): (r: string)
    ensures HasPrefix(r, SchemePrefix) && HasSuffix(r, RpcPath)
    ensures r == (if HasPrefix(address, SchemePrefix) then "" else DefaultScheme)
                 + address
                 + (if HasSuffix(address, RpcPath) || address == RpcPath[1..] then "" else RpcPath)
    ensures r == address <==> HasPrefix(address, SchemePrefix) && HasSuffix(address, RpcPath)
  {
    var withScheme := if HasPrefix(address, SchemePrefix) then address else DefaultScheme + address;
    SchemeKeepsSuffix(address);
    assert address == RpcPath[1..] ==> !HasPrefix(address, SchemePrefix) by {
      assert RpcPath[1..][0] != SchemePrefix[0];
    }
    assert HasPrefix(withScheme, SchemePrefix) by {
      if !HasPrefix(address, SchemePrefix) {
        assert withScheme[..|SchemePrefix|] == DefaultScheme[..|SchemePrefix|];
      }
    }
    var r := if HasSuffix(withScheme, RpcPath) then withScheme else withScheme + RpcPath;
    assert HasPrefix(r, SchemePrefix) by {
      assert r[..|SchemePrefix|] == withScheme[..|SchemePrefix|];
    }
    assert HasSuffix(r, RpcPath) by {
      if !HasSuffix(withScheme, RpcPath) {
        assert r[|r| - |RpcPath|..] == RpcPath;
      }
    }
    assert r == (if HasPrefix(address, SchemePrefix) then "" else DefaultScheme)
                + address
                + (if HasSuffix(address, RpcPath) || address == RpcPath[1..] then "" else RpcPath);
    r
  }

  /** Normalising an already normalised address changes nothing. */
  lemma NormalizeIdempotent(address: string)
    ensures Normalize(Normalize(address)) == Normalize(address)
  {
  }

  /** An address with neither a scheme nor the path gets both. */
  lemma NormalizeBareHost()
    ensures Normalize("localhost:9091") == "http://localhost:9091/transmission/rpc"
  {
    var a := "localhost:9091";
    assert !HasPrefix(a, SchemePrefix) by { assert a[..4][0] == 'l'; }
    assert !HasSuffix(a, RpcPath) && a != RpcPath[1..] by { assert |a| < |RpcPath[1..]|; }
    assert DefaultScheme + a + RpcPath == "http://localhost:9091/transmission/rpc";
  }

  /** A full RPC URL is left as it is. */
  lemma NormalizeFullUrl()
    ensures Normalize("https://host/transmission/rpc") == "https://host/transmission/rpc"
  {
    var a := "https://host/transmission/rpc";
    assert a[..4] == SchemePrefix;
    assert a[|a| - |RpcPath|..] == RpcPath;
  }

  /** The one address whose suffix comes from the prepended scheme. */
  lemma NormalizePathOnly()
    ensures Normalize("transmission/rpc") == "http://transmission/rpc"
  {
    var a := "transmission/rpc";
    assert a == RpcPath[1..];
    assert !HasPrefix(a, SchemePrefix) by { assert a[..4][0] == 't'; }
    assert !HasSuffix(a, RpcPath);
  }
}
