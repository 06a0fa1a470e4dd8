/**
 `_process_config`: for every section under the integration's YAML key, and
 within it for every platform of PLATFORMS in order, one discovery dispatch
 `{"devices": section[platform]}` for each platform the section declares.

 The reference definition is recursive on the last element, so that it
 follows the loops' order; `ProcessConfig` is the nested loop itself.
 */
module Discovery {
  import opened Hass

  /** The platforms of `platforms` that `section` declares, in order. */
  function Present(section: Section, platforms: seq<Platform>): (ps: seq<Platform>)
    ensures |ps| <= |platforms|
    ensures forall p :: p in ps <==> p in platforms && p in section
  {
    if |platforms| == 0 then []
    else
      var p := platforms[|platforms| - 1];
      Present(section, platforms[..|platforms| - 1]) + (if p in section then [p] else [])
  }

  /** The dispatch for one platform a section declares. */
  function Load(m: Manifest, config: Config, section: Section, p: Platform): Action
    requires p in section
  {
    LoadPlatform(p, m.domain, Payload(section[p]), config)
  }

  /** The dispatches of one section, platforms taken in the order given. */
  function SectionDispatches(m: Manifest, config: Config, section: Section, platforms: seq<Platform>): seq<Action>
  {
    if |platforms| == 0 then []
    else
      var p := platforms[|platforms| - 1];
      SectionDispatches(m, config, section, platforms[..|platforms| - 1])
      + (if p in section then [Load(m, config, section, p)] else [])
  }

  /** One section's dispatches are its declared platforms, filtered in
      order, each mapped to the dispatch carrying that platform's devices. */
  lemma {:induction false} SectionDispatchesFilterMap(m: Manifest, config: Config, section: Section, platforms: seq<Platform>)
    ensures var r := SectionDispatches(m, config, section, platforms);
            var present := Present(section, platforms);
            && |r| == |present|
            && forall k :: 0 <= k < |r| ==> r[k] == Load(m, config, section, present[k])
    decreases |platforms|
  {
    if |platforms| > 0 {
      SectionDispatchesFilterMap(m, config, section, platforms[..|platforms| - 1]);
    }
  }

  /** The dispatches of a list of sections, section by section. */
  function ConfigDispatches(m: Manifest, config: Config, sections: seq<Section>): seq<Action>
  {
    if |sections| == 0 then []
    else
      ConfigDispatches(m, config, sections[..|sections| - 1])
      + SectionDispatches(m, config, sections[|sections| - 1], m.platforms)
  }

  /** Soundness: each dispatch is a `LoadPlatform` of a listed platform, for
      the integration's domain, carrying the full configuration and the
      devices one of the sections declares for that platform. */
  lemma {:induction false} DispatchesSound(m: Manifest, config: Config, sections: seq<Section>)
    ensures forall a :: a in ConfigDispatches(m, config, sections) ==>
              && a.LoadPlatform?
              && a.domain == m.domain
              && a.config == config
              && a.platform in m.platforms
              && exists i :: 0 <= i < |sections| && a.platform in sections[i]
                                                 && a.payload == Payload(sections[i][a.platform])
    decreases |sections|
  {
    if |sections| > 0 {
      var init := sections[..|sections| - 1];
      var last := sections[|sections| - 1];
      DispatchesSound(m, config, init);
      SectionDispatchesFilterMap(m, config, last, m.platforms);
      var present := Present(last, m.platforms);
      var here := SectionDispatches(m, config, last, m.platforms);
      forall a | a in ConfigDispatches(m, config, sections)
        ensures && a.LoadPlatform?
                && a.domain == m.domain
                && a.config == config
                && a.platform in m.platforms
                && exists i :: 0 <= i < |sections| && a.platform in sections[i]
                                                   && a.payload == Payload(sections[i][a.platform])
      {
        if a in ConfigDispatches(m, config, init) {
          var i :| 0 <= i < |init| && a.platform in init[i] && a.payload == Payload(init[i][a.platform]);
          assert init[i] == sections[i];
        } else {
          assert a in here;
          var k :| 0 <= k < |here| && here[k] == a;
          assert present[k] in present;
          assert a == Load(m, config, last, present[k]);
          assert last == sections[|sections| - 1];
        }
      }
    }
  }

  /** The dispatches `_process_config` issues for a configuration that has
      the integration's key. */
  function Dispatches(m: Manifest, config: Config): seq<Action>
    requires m.domain in config.domains
  {
    ConfigDispatches(m, config, config.domains[m.domain])
  }

  /** `_process_config` as the nested loop it is: sections outside,
      PLATFORMS inside. It issues exactly the reference dispatches. */
  method ProcessConfig(m: Manifest, config: Config) returns (tasks: seq<Action>)
    requires m.domain in config.domains
    ensures tasks == Dispatches(m, config)
  {
    var sections := config.domains[m.domain];
    tasks := [];
    var i := 0;
    while i < |sections|
      invariant 0 <= i <= |sections|
      invariant tasks == ConfigDispatches(m, config, sections[..i])
    {
      var section := sections[i];
      var issued := [];
      var j := 0;
      while j < |m.platforms|
        invariant 0 <= j <= |m.platforms|
        invariant issued == SectionDispatches(m, config, section, m.platforms[..j])
      {
        var p := m.platforms[j];
        if p in section {
          issued := issued + [LoadPlatform(p, m.domain, Payload(section[p]), config)];
        }
        assert m.platforms[..j + 1][..j] == m.platforms[..j];
        j := j + 1;
      }
      tasks := tasks + issued;
      assert m.platforms[..j] == m.platforms;
      assert sections[..i + 1][..i] == sections[..i];
      assert ConfigDispatches(m, config, sections[..i + 1])
             == ConfigDispatches(m, config, sections[..i]) + SectionDispatches(m, config, section, m.platforms);
      i := i + 1;
    }
    assert sections[..i] == sections;
  }

  /** Completeness: every platform a section declares is dispatched with
      that section's devices. */
  lemma {:induction false} DispatchesComplete(m: Manifest, config: Config, sections: seq<Section>, i: int, p: Platform)
    requires 0 <= i < |sections| && p in m.platforms && p in sections[i]
    ensures Load(m, config, sections[i], p) in ConfigDispatches(m, config, sections)
  {
    var init := sections[..|sections| - 1];
    if i == |sections| - 1 {
      var present := Present(sections[i], m.platforms);
      SectionDispatchesFilterMap(m, config, sections[i], m.platforms);
      assert p in present;
      var k :| 0 <= k < |present| && present[k] == p;
      assert SectionDispatches(m, config, sections[i], m.platforms)[k] == Load(m, config, sections[i], p);
    } else {
      assert init[i] == sections[i];
      DispatchesComplete(m, config, init, i, p);
    }
  }

  /** Section order: the dispatches of two runs of sections are those of
      the first followed by those of the second. */
  lemma {:induction false} DispatchesAppend(m: Manifest, config: Config, s1: seq<Section>, s2: seq<Section>)
    ensures ConfigDispatches(m, config, s1 + s2) == ConfigDispatches(m, config, s1) + ConfigDispatches(m, config, s2)
    decreases |s2|
  {
    if |s2| == 0 {
      assert s1 + s2 == s1;
    } else {
      var init := s2[..|s2| - 1];
      assert (s1 + s2)[..|s1 + s2| - 1] == s1 + init;
      assert (s1 + s2)[|s1 + s2| - 1] == s2[|s2| - 1];
      DispatchesAppend(m, config, s1, init);
    }
  }

  /** Platform order within a section: the dispatches for two runs of
      platforms are those of the first followed by those of the second. */
  lemma {:induction false} SectionDispatchesAppend(m: Manifest, config: Config, section: Section,
                                                   p1: seq<Platform>, p2: seq<Platform>)
    ensures SectionDispatches(m, config, section, p1 + p2)
            == SectionDispatches(m, config, section, p1) + SectionDispatches(m, config, section, p2)
    decreases |p2|
  {
    if |p2| == 0 {
      assert p1 + p2 == p1;
    } else {
      var init := p2[..|p2| - 1];
      assert (p1 + p2)[..|p1 + p2| - 1] == p1 + init;
      assert (p1 + p2)[|p1 + p2| - 1] == p2[|p2| - 1];
      SectionDispatchesAppend(m, config, section, p1, init);
    }
  }

  /** The number of dispatches is the number of (section, platform) pairs
      where the section declares the platform. */
  lemma {:induction false} DispatchCount(m: Manifest, config: Config, sections: seq<Section>)
    ensures |ConfigDispatches(m, config, sections)| == PairCount(sections, m.platforms)
    decreases |sections|
  {
    if |sections| > 0 {
      DispatchCount(m, config, sections[..|sections| - 1]);
      SectionDispatchesFilterMap(m, config, sections[|sections| - 1], m.platforms);
    }
  }

  /** How many (section, platform) pairs have the platform declared. */
  function PairCount(sections: seq<Section>, platforms: seq<Platform>): nat
  {
    if |sections| == 0 then 0
    else PairCount(sections[..|sections| - 1], platforms) + |Present(sections[|sections| - 1], platforms)|
  }
}
