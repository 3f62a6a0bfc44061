/**
 * The records the view models exchange: the keyed entries shown in the
 * Errors and Warnings lists (Models/KeyValueItem.cs) and the four persisted
 * settings.
 */
module Models {
  import opened Lists
  import opened Text

  /** One entry of an Errors or Warnings list: the field it is about and the message. */
  datatype KeyValueItem = KeyValueItem(key: string, value: string)

  /** The persisted settings, with their four string properties written out. */
  datatype AppSettings = AppSettings(templatesPath: string, outputPath: string, firstName: string, lastName: string)

  /** The keys of a list of entries, in list order. */
  function Keys(items: seq<KeyValueItem>): (ks: seq<string>)
    ensures |ks| == |items|
    ensures forall i :: 0 <= i < |items| ==> ks[i] == items[i].key
  {
    if items == [] then [] else [items[0].key] + Keys(items[1..])
  }

  /** Every entry of `items` is keyed `key`. */
  predicate AllKeyed(items: seq<KeyValueItem>, key: string) {
    forall i :: 0 <= i < |items| ==> items[i].key == key
  }

  /** The entries of `items` whose key is `key`, in list order. */
  function WithKey(items: seq<KeyValueItem>, key: string): seq<KeyValueItem> {
    if items == [] then []
    else (if items[0].key == key then [items[0]] else []) + WithKey(items[1..], key)
  }

  /** `WithKey` keeps, in order, the entries keyed `key` and every one of them. */
  lemma {:induction false} WithKeyMeaning(items: seq<KeyValueItem>, key: string)
    ensures AllKeyed(WithKey(items, key), key) && IsSubsequence(WithKey(items, key), items)
    ensures forall i :: 0 <= i < |items| && items[i].key == key ==> items[i] in WithKey(items, key)
  {
    if items != [] {
      WithKeyMeaning(items[1..], key);
      var rest := WithKey(items[1..], key);
      if items[0].key == key {
        assert WithKey(items, key) == [items[0]] + rest;
        assert ([items[0]] + rest)[1..] == rest;
      } else {
        assert WithKey(items, key) == rest;
      }
      forall i | 0 <= i < |items| && items[i].key == key
        ensures items[i] in WithKey(items, key)
      {
        if i > 0 {
          assert items[i] == items[1..][i - 1];
        }
      }
    }
  }

  lemma {:induction false} WithKeyConcat(a: seq<KeyValueItem>, b: seq<KeyValueItem>, key: string)
    ensures WithKey(a + b, key) == WithKey(a, key) + WithKey(b, key)
  {
    if a == [] {
      assert a + b == b;
    } else {
      var head := if a[0].key == key then [a[0]] else [];
      assert (a + b)[0] == a[0] && (a + b)[1..] == a[1..] + b;
      assert WithKey(a + b, key) == head + WithKey(a[1..] + b, key);
      WithKeyConcat(a[1..], b, key);
      assert WithKey(a, key) == head + WithKey(a[1..], key);
    }
  }

  /** Every entry of `items` has the key `key`: selecting by it keeps them all. */
  lemma {:induction false} WithKeyAll(items: seq<KeyValueItem>, key: string)
    requires AllKeyed(items, key)
    ensures WithKey(items, key) == items
  {
    if items != [] {
      WithKeyAll(items[1..], key);
    }
  }

  /** No entry of `items` has the key `key`: selecting by it keeps none. */
  lemma {:induction false} WithKeyNone(items: seq<KeyValueItem>, key: string)
    requires forall i :: 0 <= i < |items| ==> items[i].key != key
    ensures WithKey(items, key) == []
  {
    if items != [] {
      WithKeyNone(items[1..], key);
    }
  }

  /** The error `item` when `value` is blank (`string.IsNullOrWhiteSpace`), and none otherwise. */
  function ErrorIfBlank(value: string, item: KeyValueItem): seq<KeyValueItem> {
    if IsBlank(value) then [item] else []
  }

  /** The string properties of the settings, in declaration order, as name/value pairs. */
  function SettingsList(s: AppSettings): (r: seq<KeyValueItem>)
    ensures Keys(r) == ["TemplatesPath", "OutputPath", "FirstName", "LastName"]
    ensures |r| == 4 && r[0].value == s.templatesPath && r[1].value == s.outputPath
    ensures r[2].value == s.firstName && r[3].value == s.lastName
  {
    [KeyValueItem("TemplatesPath", s.templatesPath), KeyValueItem("OutputPath", s.outputPath),
     KeyValueItem("FirstName", s.firstName), KeyValueItem("LastName", s.lastName)]
  }
}
