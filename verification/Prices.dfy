/** The domain's value types. Decimals are reals; instants and durations are integers. */
module Prices {

  /** The fields no modelled operation reads or writes are left out. */
  datatype Price = Price(coinID: string, currency: string, value: real, provider: string,
                         timestamp: int, receivedAt: int)

  datatype OHLC = OHLC(time: int, open: real, high: real, low: real, close: real)

  datatype Error = NoHealthyProvider | CallFailed(code: int) | PriceZero | PriceStale

  /** What a provider call returns: a price or an error, never neither. */
  datatype Answer = Priced(price: Price) | Refused(error: Error)

  function StoreKey(coinID: string, currency: string): string {
    coinID + ":" + currency
  }

  lemma PastSeparator(coin: string, cur: string)
    ensures |StoreKey(coin, cur)| == |coin| + 1 + |cur| && StoreKey(coin, cur)[|coin|] == ':'
    ensures forall p :: 0 <= p < |coin| ==> StoreKey(coin, cur)[p] in coin
    ensures forall p :: |coin| < p < |StoreKey(coin, cur)| ==> StoreKey(coin, cur)[p] in cur
  {
  }

  /** Two pairs share a key only if they are equal, as long as no currency contains the separator. */
  lemma KeyDetermines(coin: string, cur: string, coin': string, cur': string)
    requires ':' !in cur && ':' !in cur'
    ensures StoreKey(coin, cur) == StoreKey(coin', cur') <==> coin == coin' && cur == cur'
  {
    var k, k' := StoreKey(coin, cur), StoreKey(coin', cur');
    PastSeparator(coin, cur);
    PastSeparator(coin', cur');
    assert k[..|coin|] == coin && k'[..|coin'|] == coin';
    assert k[|coin| + 1..] == cur && k'[|coin'| + 1..] == cur';
  }

  /** A pair shares its key with some other pair exactly when one of its names contains the separator. */
  lemma KeysCollideIff(coin: string, cur: string)
    ensures (exists coin', cur' :: StoreKey(coin', cur') == StoreKey(coin, cur) && (coin' != coin || cur' != cur))
       <==> ':' in coin || ':' in cur
  {
    var k := StoreKey(coin, cur);
    if ':' in cur {
      var j :| 0 <= j < |cur| && cur[j] == ':';
      assert StoreKey(coin + ":" + cur[..j], cur[j + 1..]) == k;
    } else if ':' in coin {
      var j :| 0 <= j < |coin| && coin[j] == ':';
      assert StoreKey(coin[..j], coin[j + 1..] + ":" + cur) == k;
    } else {
      forall coin', cur' | StoreKey(coin', cur') == k ensures coin' == coin && cur' == cur {
        PastSeparator(coin', cur');
        SeparatedOnce(coin, cur, |coin'|);
        assert k[..|coin'|] == coin' && k[..|coin|] == coin;
        assert k[|coin'| + 1..] == cur' && k[|coin| + 1..] == cur;
      }
    }
  }

  lemma SeparatedOnce(coin: string, cur: string, i: nat)
    requires ':' !in coin && ':' !in cur && i < |StoreKey(coin, cur)| && StoreKey(coin, cur)[i] == ':'
    ensures i == |coin|
  {
    PastSeparator(coin, cur);
  }
}
