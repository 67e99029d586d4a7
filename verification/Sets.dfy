/** The sizes of finite sets. */
module Sets {
  lemma {:induction false} SubsetSize<T>(small: set<T>, big: set<T>)
    requires small <= big
    ensures |small| <= |big| && (|small| == |big| ==> small == big)
  {
    if big != {} {
      var x :| x in big;
      SubsetSize(small - {x}, big - {x});
      if x in small { assert small == (small - {x}) + {x}; } else { assert small - {x} == small; }
      assert big == (big - {x}) + {x};
    }
  }
}
