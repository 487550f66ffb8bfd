/**
 * The in-place updaters of text size and reduce options
 * (updateTextSize and updateReduceOptions, internal/provider/utils.go:896-930).
 */
module Updaters {
  import opened Wrappers
  import opened Overlay
  import O = Options
  import G = Grafana

  function TitleSizeOverride(o: O.TextSizeOptions): Option<Option<int>> {
    if o.title.isNull then None else Some(Some(o.title.value))
  }

  function ValueSizeOverride(o: O.TextSizeOptions): Option<Option<int>> {
    if o.value.isNull then None else Some(Some(o.value.value))
  }

  function ReduceValuesOverride(o: O.ReduceOptions): Option<bool> { o.values.Known() }

  function ReduceFieldsOverride(o: O.ReduceOptions): Option<string> { o.fields.Known() }

  function ReduceLimitOverride(o: O.ReduceOptions): Option<Option<int>> {
    if o.limit.isNull then None else Some(Some(o.limit.value))
  }

  /** A present calculation replaces the whole list by that one calculation. */
  function ReduceCalcsOverride(o: O.ReduceOptions): Option<seq<string>> {
    if o.calculation.isNull then None else Some([o.calculation.value])
  }

  /** Updates the text sizes: each size becomes the last present option for it, or stays. */
  method UpdateTextSize(options: G.TextSize, opts: seq<O.TextSizeOptions>)
    modifies options
    ensures options.titleSize == LastSome(old(options.titleSize), Map(opts, TitleSizeOverride))
    ensures options.valueSize == LastSome(old(options.valueSize), Map(opts, ValueSizeOverride))
  {
    for i := 0 to |opts|
      invariant options.titleSize == LastSome(old(options.titleSize), Map(opts[..i], TitleSizeOverride))
      invariant options.valueSize == LastSome(old(options.valueSize), Map(opts[..i], ValueSizeOverride))
    {
      var textSize := opts[i];
      LastSomeStep(old(options.titleSize), opts, i, TitleSizeOverride);
      LastSomeStep(old(options.valueSize), opts, i, ValueSizeOverride);
      if !textSize.title.isNull {
        var size := textSize.title.value;
        options.titleSize := Some(size);
      }
      if !textSize.value.isNull {
        var size := textSize.value.value;
        options.valueSize := Some(size);
      }
    }
    assert opts[..|opts|] == opts;
  }

  /** Updates the reduce options: each setting becomes the last present option
      for it, or stays; a present calculation makes the list that one calculation. */
  method UpdateReduceOptions(options: G.ReduceOptions, opts: seq<O.ReduceOptions>)
    modifies options
    ensures options.values == LastSome(old(options.values), Map(opts, ReduceValuesOverride))
    ensures options.fields == LastSome(old(options.fields), Map(opts, ReduceFieldsOverride))
    ensures options.limit == LastSome(old(options.limit), Map(opts, ReduceLimitOverride))
    ensures options.calcs == LastSome(old(options.calcs), Map(opts, ReduceCalcsOverride))
  {
    for i := 0 to |opts|
      invariant options.values == LastSome(old(options.values), Map(opts[..i], ReduceValuesOverride))
      invariant options.fields == LastSome(old(options.fields), Map(opts[..i], ReduceFieldsOverride))
      invariant options.limit == LastSome(old(options.limit), Map(opts[..i], ReduceLimitOverride))
      invariant options.calcs == LastSome(old(options.calcs), Map(opts[..i], ReduceCalcsOverride))
    {
      var reducer := opts[i];
      LastSomeStep(old(options.values), opts, i, ReduceValuesOverride);
      LastSomeStep(old(options.fields), opts, i, ReduceFieldsOverride);
      LastSomeStep(old(options.limit), opts, i, ReduceLimitOverride);
      LastSomeStep(old(options.calcs), opts, i, ReduceCalcsOverride);
      if !reducer.values.isNull {
        options.values := reducer.values.value;
      }
      if !reducer.fields.isNull {
        options.fields := reducer.fields.value;
      }
      if !reducer.limit.isNull {
        var limit := reducer.limit.value;
        options.limit := Some(limit);
      }
      if !reducer.calculation.isNull {
        options.calcs := [reducer.calculation.value];
      }
    }
    assert opts[..|opts|] == opts;
  }

  /** After the reduce update the calculations are unchanged when no option
      names one, and otherwise the single calculation of the last option that does. */
  lemma {:induction false} ReduceCalcsSingleton(prior: seq<string>, opts: seq<O.ReduceOptions>)
    ensures var calcs := LastSome(prior, Map(opts, ReduceCalcsOverride));
            && ((forall i :: 0 <= i < |opts| ==> opts[i].calculation.isNull) ==> calcs == prior)
            && ((exists i :: 0 <= i < |opts| && !opts[i].calculation.isNull)
                ==> exists j :: 0 <= j < |opts| && !opts[j].calculation.isNull
                                && calcs == [opts[j].calculation.value]
                                && forall k :: j < k < |opts| ==> opts[k].calculation.isNull)
  {
    if forall i :: 0 <= i < |opts| ==> opts[i].calculation.isNull {
      ReduceCalcsKept(prior, opts);
    }
    ReduceCalcsFromLast(prior, opts);
  }

  /** With no calculation named, the calculations are kept. */
  lemma {:induction false} ReduceCalcsKept(prior: seq<string>, opts: seq<O.ReduceOptions>)
    requires forall i :: 0 <= i < |opts| ==> opts[i].calculation.isNull
    ensures LastSome(prior, Map(opts, ReduceCalcsOverride)) == prior
  {
    var os := Map(opts, ReduceCalcsOverride);
    MapAt(opts, ReduceCalcsOverride);
    assert forall i :: 0 <= i < |os| ==> os[i] == None;
    LastSomeAllAbsent(prior, os);
  }

  /** With a calculation named, the calculations are the one of the last option naming one. */
  lemma ReduceCalcsFromLast(prior: seq<string>, opts: seq<O.ReduceOptions>)
    ensures (exists i :: 0 <= i < |opts| && !opts[i].calculation.isNull)
            ==> exists j :: 0 <= j < |opts| && !opts[j].calculation.isNull
                            && LastSome(prior, Map(opts, ReduceCalcsOverride)) == [opts[j].calculation.value]
                            && forall k :: j < k < |opts| ==> opts[k].calculation.isNull
  {
    if i :| 0 <= i < |opts| && !opts[i].calculation.isNull {
      var os := Map(opts, ReduceCalcsOverride);
      MapAt(opts, ReduceCalcsOverride);
      assert os[i].Some?;
      LastSomeWitness(prior, os);
      var j :| 0 <= j < |os| && os[j] == Some(LastSome(prior, os))
               && forall k :: j < k < |os| ==> os[k] == None;
      assert !opts[j].calculation.isNull;
      assert forall k :: j < k < |opts| ==> os[k] == None ==> opts[k].calculation.isNull;
    }
  }

  /** The title size after the update is the title of the last option that sets one. */
  lemma {:induction false} TextSizeLastWins(prior: Option<int>, opts: seq<O.TextSizeOptions>, j: nat)
    requires j < |opts| && !opts[j].title.isNull
    requires forall k :: j < k < |opts| ==> opts[k].title.isNull
    ensures LastSome(prior, Map(opts, TitleSizeOverride)) == Some(opts[j].title.value)
  {
    MapAt(opts, TitleSizeOverride);
    LastSomeLastPresent(prior, Map(opts, TitleSizeOverride), j);
  }
}
