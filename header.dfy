/** The profile header banner: which image stands in for a missing header,
    and how the banner element retries after an image fails to load. */
module Header {
  import opened Common

  /** The file name the server uses for "no image uploaded". */
  const MissingSuffix: string := "missing.png"

  predicate IsMissing(url: string)
  {
    EndsWith(url, MissingSuffix)
  }

  /** A URL that is present, non-empty and not the missing-image placeholder. */
  predicate Usable(url: Option<string>)
  {
    Truthy(url) && !IsMissing(url.value)
  }

  /** The header fallback: when the account has no usable header but a usable
      avatar, the avatar becomes the header (and `headerIsAvatar` is set); the
      static header is replaced only by a usable static avatar. The banner is
      drawn exactly when the chosen header is usable, that is when either the
      header or the avatar was. */
  method ChooseHeader(header: Option<string>, headerStatic: Option<string>,
                      avatar: Option<string>, avatarStatic: Option<string>)
    returns (h: Option<string>, hs: Option<string>, headerIsAvatar: bool)
    ensures headerIsAvatar <==> !Usable(header) && Usable(avatar)
    ensures h == (if headerIsAvatar then avatar else header)
    ensures hs == (if headerIsAvatar && Usable(avatarStatic) then avatarStatic else headerStatic)
    ensures Usable(h) <==> Usable(header) || Usable(avatar)
    ensures !headerIsAvatar ==> h == header && hs == headerStatic
  {
    headerIsAvatar := false;
    h, hs := header, headerStatic;
    if !Truthy(h) || IsMissing(h.value) {
      if Truthy(avatar) && !IsMissing(avatar.value) {
        h := avatar;
        headerIsAvatar := true;
        if Truthy(avatarStatic) && !IsMissing(avatarStatic.value) {
          hs := avatarStatic;
        }
      }
    }
  }

  /** What the banner `<img>` element looks like between load failures: the
      URL it is loading, whether it still carries `crossorigin`, and whether
      it is still in the document. */
  datatype BannerState = BannerState(src: string, crossOrigin: bool, attached: bool)

  /** The element as first rendered: the header URL, loaded cross-origin. */
  function InitialBanner(header: string): BannerState
  {
    BannerState(header, true, true)
  }

  /** One `onError` reaction: first fall back to the static header; when that
      fails with `crossorigin` set, drop the attribute and reload the header;
      when the static header fails without it, remove the element. */
  function OnErrorStep(s: BannerState, header: string, headerStatic: string): BannerState
  {
    if s.crossOrigin then
      if s.src != headerStatic then s.(src := headerStatic)
      else s.(crossOrigin := false, src := header)
    else if s.src != headerStatic then s.(src := headerStatic)
    else s.(attached := false)
  }

  /** The state after `n` consecutive load failures. */
  function AfterErrors(s: BannerState, header: string, headerStatic: string, n: nat): BannerState
    decreases n
  {
    if n == 0 then s else AfterErrors(OnErrorStep(s, header, headerStatic), header, headerStatic, n - 1)
  }

  /** How many more failures an attached element can take before it is removed. */
  function RetriesLeft(s: BannerState, headerStatic: string): nat
  {
    if !s.attached then 0
    else if s.crossOrigin then (if s.src == headerStatic then 3 else 4)
    else (if s.src == headerStatic then 1 else 2)
  }

  /** Every failure of an attached element brings it strictly closer to removal. */
  lemma OnErrorMakesProgress(s: BannerState, header: string, headerStatic: string)
    requires s.attached
    ensures RetriesLeft(OnErrorStep(s, header, headerStatic), headerStatic) < RetriesLeft(s, headerStatic)
  {
  }

  /** From any state, `RetriesLeft` failures remove the element: the retry
      chain cannot loop. */
  lemma {:induction false} RemovedAfterRetries(s: BannerState, header: string, headerStatic: string, n: nat)
    requires n >= RetriesLeft(s, headerStatic)
    ensures !AfterErrors(s, header, headerStatic, n).attached
    decreases n
  {
    if n > 0 {
      var t := OnErrorStep(s, header, headerStatic);
      if s.attached {
        OnErrorMakesProgress(s, header, headerStatic);
      }
      RemovedAfterRetries(t, header, headerStatic, n - 1);
    }
  }

  /** The order of attempts for a distinct static header: the static image,
      the header again without `crossorigin`, the static image once more,
      then removal after the fourth failure. */
  lemma RetryOrder(header: string, headerStatic: string)
    requires header != headerStatic
    ensures AfterErrors(InitialBanner(header), header, headerStatic, 1) == BannerState(headerStatic, true, true)
    ensures AfterErrors(InitialBanner(header), header, headerStatic, 2) == BannerState(header, false, true)
    ensures AfterErrors(InitialBanner(header), header, headerStatic, 3) == BannerState(headerStatic, false, true)
    ensures !AfterErrors(InitialBanner(header), header, headerStatic, 4).attached
  {
    var s0 := InitialBanner(header);
    var s1 := OnErrorStep(s0, header, headerStatic);
    var s2 := OnErrorStep(s1, header, headerStatic);
    var s3 := OnErrorStep(s2, header, headerStatic);
    assert AfterErrors(s1, header, headerStatic, 1) == s2;
    assert AfterErrors(s0, header, headerStatic, 2) == s2;
    assert AfterErrors(s2, header, headerStatic, 1) == s3;
    assert AfterErrors(s1, header, headerStatic, 2) == s3;
    assert AfterErrors(s3, header, headerStatic, 1) == OnErrorStep(s3, header, headerStatic);
    assert AfterErrors(s2, header, headerStatic, 2) == AfterErrors(s3, header, headerStatic, 1);
    assert AfterErrors(s1, header, headerStatic, 3) == AfterErrors(s2, header, headerStatic, 2);
  }

  /** When the static header is the header itself, the first failure drops
      `crossorigin` and the second removes the element. */
  lemma RetryOrderSameStatic(header: string)
    ensures AfterErrors(InitialBanner(header), header, header, 1) == BannerState(header, false, true)
    ensures !AfterErrors(InitialBanner(header), header, header, 2).attached
  {
    var s1 := OnErrorStep(InitialBanner(header), header, header);
    assert AfterErrors(s1, header, header, 1) == OnErrorStep(s1, header, header);
  }

  /** The banner `<img>` element, whose `src` and `crossorigin` attribute the
      error handler rewrites in place. */
  class HeaderBanner {
    const header: string
    const headerStatic: string
    var src: string
    var crossOrigin: bool
    var attached: bool

    function State(): BannerState
      reads this
    {
      BannerState(src, crossOrigin, attached)
    }

    constructor (header: string, headerStatic: string)
      ensures this.header == header && this.headerStatic == headerStatic
      ensures State() == InitialBanner(header)
    {
      this.header := header;
      this.headerStatic := headerStatic;
      src := header;
      crossOrigin := true;
      attached := true;
    }

    /** The `onError` handler. */
    method OnError()
      modifies this
      ensures State() == OnErrorStep(old(State()), header, headerStatic)
      ensures old(attached) ==> RetriesLeft(State(), headerStatic) < RetriesLeft(old(State()), headerStatic)
    {
      if crossOrigin {
        if src != headerStatic {
          src := headerStatic;
        } else {
          crossOrigin := false;
          src := header;
        }
      } else if src != headerStatic {
        src := headerStatic;
      } else {
        attached := false;
      }
    }
  }
}
