/** `getPluginConfigKeys`: each plugin claims the configuration keys whose
    text contains its class's simple name. */
module PluginKeys {
  import opened JavaStrings

  /** The simple class names, which share the stem `AzureBlobStorage`. */
  const Stem := "AzureBlobStorage"
  const CacheClassName := Stem + "Cache"
  const SourceClassName := Stem + "Source"

  /** A cache key: `cache.AzureBlobStorageCache.<setting>`. */
  function CacheKey(setting: string): string {
    "cache." + CacheClassName + "." + setting
  }

  /** A source key: `source.AzureBlobStorageSource.<setting>`. */
  function SourceKey(setting: string): string {
    "source." + SourceClassName + "." + setting
  }

  /** The `Key` enumeration's values, in declaration order. */
  const AllKeys: seq<string> := [
    CacheKey("account_key"), CacheKey("account_name"), CacheKey("container_name"), CacheKey("endpoint"),
    CacheKey("blob_name_prefix"),
    SourceKey("account_key"), SourceKey("account_name"), SourceKey("chunking.enabled"),
    SourceKey("chunking.chunk_size"), SourceKey("container_name"), SourceKey("endpoint"),
    SourceKey("lookup_strategy")]

  /** The keys whose text contains `className`. */
  function PluginConfigKeys(className: string): (r: set<string>)
    ensures forall k :: k in r ==> k in AllKeys
    ensures forall i :: 0 <= i < |AllKeys| && Contains(AllKeys[i], className) ==> AllKeys[i] in r
    ensures forall k :: k in r ==> Contains(k, className)
  {
    set k | k in AllKeys && Contains(k, className)
  }

  /** An occurrence of `sub` uses up at least as many of each character. */
  lemma OccurrenceNeedsItsCharacters(s: string, sub: string, i: int)
    requires OccursAt(s, sub, i)
    ensures multiset(sub) <= multiset(s)
  {
    assert s == s[..i] + sub + s[i + |sub|..];
    calc {
      multiset(s);
      multiset(s[..i] + sub + s[i + |sub|..]);
      multiset(s[..i]) + multiset(sub) + multiset(s[i + |sub|..]);
    }
  }

  /** `s` cannot contain `sub` when `sub` has more of some character. */
  lemma TooFewToContain(s: string, sub: string, c: char)
    requires multiset(s)[c] < multiset(sub)[c]
    ensures !Contains(s, sub)
  {
    if Contains(s, sub) {
      var i :| 0 <= i <= |s| && OccursAt(s, sub, i);
      OccurrenceNeedsItsCharacters(s, sub, i);
    }
  }

  /** A key contains the class name it is built around. */
  lemma KeyContainsItsClass(scope: string, className: string, setting: string)
    ensures Contains(scope + className + "." + setting, className)
  {
    var k := scope + className + "." + setting;
    assert k[|scope|..|scope| + |className|] == className;
    assert OccursAt(k, className, |scope|);
  }

  /** A key cannot contain a name with more of some character than the key
      has, counting the key piece by piece. */
  lemma KeyLacksName(scope: string, className: string, setting: string, name: string, c: char)
    requires c !in scope && c !in setting && c != '.'
    requires multiset(className)[c] < multiset(name)[c]
    ensures !Contains(scope + className + "." + setting, name)
  {
    var k := scope + className + "." + setting;
    assert multiset(k) == multiset(scope) + multiset(className) + multiset(".") + multiset(setting);
    TooFewToContain(k, name, c);
  }

  // The letters that tell the two class names apart, one fact at a time.

  lemma CacheClassHasOneS()
    ensures multiset(CacheClassName)['S'] == 1
  {
  }

  lemma SourceClassHasTwoS()
    ensures multiset(SourceClassName)['S'] == 2
  {
  }

  /** A cache key contains the cache class name and not the source one: it
      holds one capital S, the source class name two. */
  lemma CacheKeyClaims(setting: string)
    requires 'S' !in setting
    ensures Contains(CacheKey(setting), CacheClassName)
    ensures !Contains(CacheKey(setting), SourceClassName)
  {
    KeyContainsItsClass("cache.", CacheClassName, setting);
    CacheClassHasOneS();
    SourceClassHasTwoS();
    KeyLacksName("cache.", CacheClassName, setting, SourceClassName, 'S');
  }

  /** `s` cannot contain `sub` when `sub` has a character `s` lacks. */
  lemma MissingCharacter(s: string, sub: string, j: int)
    requires 0 <= j < |sub| && sub[j] !in s
    ensures !Contains(s, sub)
  {
    forall i | 0 <= i <= |s|
      ensures !OccursAt(s, sub, i)
    {
      if i + |sub| <= |s| {
        assert s[i..i + |sub|][j] == s[i + j];
      }
    }
  }

  /** A source key contains the source class name and not the cache one: it
      holds no capital C. */
  lemma SourceKeyClaims(setting: string)
    requires 'C' !in setting
    ensures Contains(SourceKey(setting), SourceClassName)
    ensures !Contains(SourceKey(setting), CacheClassName)
  {
    KeyContainsItsClass("source.", SourceClassName, setting);
    assert CacheClassName[|Stem|] == 'C';
    assert 'C' !in "source.";
    assert 'C' !in SourceClassName;
    var k := SourceKey(setting);
    assert 'C' !in k by {
      forall i | 0 <= i < |k|
        ensures k[i] != 'C'
      {
        if i < 7 {
          assert k[i] == "source."[i];
        } else if i < 7 + |SourceClassName| {
          assert k[i] == SourceClassName[i - 7];
        } else if i == 7 + |SourceClassName| {
          assert k[i] == '.';
        } else {
          assert k[i] == setting[i - 8 - |SourceClassName|];
        }
      }
    }
    MissingCharacter(k, CacheClassName, |Stem|);
  }

  /** The cache claims exactly its five keys. */
  lemma CacheClaimsItsKeys()
    ensures PluginConfigKeys(CacheClassName) == set i | 0 <= i < 5 :: AllKeys[i]
  {
    CacheKeyClaims("account_key");
    CacheKeyClaims("account_name");
    CacheKeyClaims("container_name");
    CacheKeyClaims("endpoint");
    CacheKeyClaims("blob_name_prefix");
    SourceKeyClaims("account_key");
    SourceKeyClaims("account_name");
    SourceKeyClaims("chunking.enabled");
    SourceKeyClaims("chunking.chunk_size");
    SourceKeyClaims("container_name");
    SourceKeyClaims("endpoint");
    SourceKeyClaims("lookup_strategy");
  }

  /** The source claims exactly its seven keys. */
  lemma SourceClaimsItsKeys()
    ensures PluginConfigKeys(SourceClassName) == set i | 5 <= i < |AllKeys| :: AllKeys[i]
  {
    CacheKeyClaims("account_key");
    CacheKeyClaims("account_name");
    CacheKeyClaims("container_name");
    CacheKeyClaims("endpoint");
    CacheKeyClaims("blob_name_prefix");
    SourceKeyClaims("account_key");
    SourceKeyClaims("account_name");
    SourceKeyClaims("chunking.enabled");
    SourceKeyClaims("chunking.chunk_size");
    SourceKeyClaims("container_name");
    SourceKeyClaims("endpoint");
    SourceKeyClaims("lookup_strategy");
  }
}
