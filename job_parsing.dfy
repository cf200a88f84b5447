/**
 * XmlParsing.cpp, `ParseJobs` and `ParseJobStrings`: the job table and the job names. A job
 * element that passes the gate with fresh slots and names a code other than None selects
 * (creating it if needed) the record for its code; when the gate also accepts it on that record's
 * own slots, the record's skill list is cleared and rebuilt from the `skills` child. A job-name
 * key names a job by ten times its code, plus a non-zero last digit for the awakened name.
 */
module JobParsing {
  import opened XmlTree
  import opened ParserUtils
  import opened FeatureGate
  import opened XmlData

  /** One Skill reference at level 0 per listed sub-skill id, in list order. */
  function SubSkills(ids: seq<int>): (refs: seq<ReferenceData>)
    ensures |refs| == |ids|
    decreases |ids|
  {
    if ids == [] then []
    else SubSkills(ids[..|ids| - 1]) + [ReferenceData(Skill, ids[|ids| - 1], 0)]
  }

  /** The job skill one child of `skills` describes: its `main` skill and its `sub` skills. */
  function JobSkillOf(e: Element): JobSkill
  {
    JobSkill(ReferenceData(Skill, ReadInt(e, "main", 0), 0), SubSkills(ListAttribute(e, "sub")))
  }

  /** One job skill per child of `skills`, whatever its name, in document order. */
  function JobSkills(children: seq<Element>): (skills: seq<JobSkill>)
    ensures |skills| == |children|
    decreases |children|
  {
    if children == [] then []
    else JobSkills(children[..|children| - 1]) + [JobSkillOf(children[|children| - 1])]
  }

  /** The skill list an accepted job element rebuilds: empty when it has no `skills` child. */
  function SkillsOfJob(jobElement: Element): seq<JobSkill>
  {
    match FirstChildNamed(jobElement.children, "skills")
    case None => []
    case Some(skillsElement) => JobSkills(skillsElement.children)
  }

  function JobOrEmpty(jobs: map<JobCode, JobData>, code: JobCode): JobData
  {
    if code in jobs then jobs[code] else EmptyJob
  }

  /**
   * One round of the job loop: a job element is gated twice, first with fresh slots, then (after
   * its record has been inserted) on the record's own slots.
   */
  function ApplyJob(table: FeatureTable, requested: string, jobs: map<JobCode, JobData>, jobElement: Element): map<JobCode, JobData>
  {
    if !IsNodeEnabled(table, requested, jobElement, FreshSettings, FreshSettings).enabled then jobs
    else
      var code := ReadInt(jobElement, "code", 0);
      if code == NoJob then jobs
      else GateJob(table, requested, jobs, code, jobElement)
  }

  /** The record for `code` is inserted, then gated on its own slots; on acceptance its skills are rebuilt. */
  function GateJob(table: FeatureTable, requested: string, jobs: map<JobCode, JobData>, code: JobCode, jobElement: Element): map<JobCode, JobData>
  {
    var job := JobOrEmpty(jobs, code);
    var v := IsNodeEnabled(table, requested, jobElement, job.feature, job.locale);
    if !v.enabled then jobs[code := job]
    else jobs[code := job.(feature := v.feature, locale := v.locale, job := code, skills := SkillsOfJob(jobElement))]
  }

  /** The job table after the job loop has seen `jobElements`. */
  function ApplyJobs(table: FeatureTable, requested: string, jobs: map<JobCode, JobData>, jobElements: seq<Element>): map<JobCode, JobData>
    decreases |jobElements|
  {
    if jobElements == [] then jobs
    else ApplyJob(table, requested, ApplyJobs(table, requested, jobs, jobElements[..|jobElements| - 1]), jobElements[|jobElements| - 1])
  }

  /** The store after the job file: nothing changes unless the gate accepts the root with fresh slots. */
  function JobsFileOf(table: FeatureTable, requested: string, store: Store, root: Element): Store
  {
    if IsNodeEnabled(table, requested, root, FreshSettings, FreshSettings).enabled
    then store.(jobs := ApplyJobs(table, requested, store.jobs, root.children))
    else store
  }

  /** The loop building one job skill. */
  method ParseJobSkill(skillElement: Element) returns (skill: JobSkill)
    ensures skill == JobSkillOf(skillElement)
  {
    var skillId := ReadInt(skillElement, "main", 0);
    skill := JobSkill(ReferenceData(Skill, skillId, 0), []);
    var subSkills := ReadFreshIntList(skillElement, "sub");
    var i := 0;
    while i < |subSkills|
      invariant 0 <= i <= |subSkills|
      invariant skill == JobSkill(ReferenceData(Skill, skillId, 0), SubSkills(subSkills[..i]))
    {
      skill := skill.(subSkills := skill.subSkills + [ReferenceData(Skill, subSkills[i], 0)]);
      assert subSkills[..i + 1][..i] == subSkills[..i];
      i := i + 1;
    }
    assert subSkills[..i] == subSkills;
  }

  /** The loop over the children of `skills`, appending to a cleared skill list. */
  method ParseJobSkillList(children: seq<Element>) returns (skills: seq<JobSkill>)
    ensures skills == JobSkills(children)
  {
    skills := [];
    var i := 0;
    while i < |children|
      invariant 0 <= i <= |children|
      invariant skills == JobSkills(children[..i])
    {
      var skill := ParseJobSkill(children[i]);
      skills := skills + [skill];
      JobSkillsExtend(children, i);
      i := i + 1;
    }
    assert children[..i] == children;
  }

  /** The skill loop, one child more. */
  lemma JobSkillsExtend(children: seq<Element>, i: int)
    requires 0 <= i < |children|
    ensures JobSkills(children[..i + 1]) == JobSkills(children[..i]) + [JobSkillOf(children[i])]
  {
    assert children[..i + 1][..i] == children[..i];
  }

  /** The body of the job loop for one job element. */
  method ParseJob(table: FeatureTable, requested: string, jobs: map<JobCode, JobData>, jobElement: Element)
    returns (r: map<JobCode, JobData>)
    ensures r == ApplyJob(table, requested, jobs, jobElement)
  {
    r := jobs;
    var jobVerdict := IsNodeEnabled(table, requested, jobElement, FreshSettings, FreshSettings);
    if !jobVerdict.enabled {
      return;
    }
    var jobCode := ReadInt(jobElement, "code", 0);
    if jobCode == NoJob {
      return;
    }
    r := ParseJobRecord(table, requested, jobs, jobCode, jobElement);
  }

  /** The part of the job loop's body after the check on the code. */
  method ParseJobRecord(table: FeatureTable, requested: string, jobs: map<JobCode, JobData>, jobCode: JobCode, jobElement: Element)
    returns (r: map<JobCode, JobData>)
    ensures r == GateJob(table, requested, jobs, jobCode, jobElement)
  {
    var job := JobOrEmpty(jobs, jobCode);
    var v := IsNodeEnabled(table, requested, jobElement, job.feature, job.locale);
    if !v.enabled {
      r := jobs[jobCode := job];
      return;
    }
    job := job.(feature := v.feature, locale := v.locale, job := jobCode, skills := []);
    var skillsElement := FirstChildNamed(jobElement.children, "skills");
    if skillsElement.None? {
      r := jobs[jobCode := job];
      return;
    }
    var skills := ParseJobSkillList(skillsElement.value.children);
    job := job.(skills := skills);
    r := jobs[jobCode := job];
  }

  /** `ParseJobs`, with the root element, the feature table and the requested locale as parameters. */
  method ParseJobs(table: FeatureTable, requested: string, store: Store, root: Element) returns (result: Store)
    ensures result == JobsFileOf(table, requested, store, root)
  {
    result := store;
    var fileVerdict := IsNodeEnabled(table, requested, root, FreshSettings, FreshSettings);
    if !fileVerdict.enabled {
      return;
    }
    var jobs := ParseJobList(table, requested, store.jobs, root.children);
    result := store.(jobs := jobs);
  }

  /** The job loop of `ParseJobs`. */
  method ParseJobList(table: FeatureTable, requested: string, jobs: map<JobCode, JobData>, jobElements: seq<Element>)
    returns (r: map<JobCode, JobData>)
    ensures r == ApplyJobs(table, requested, jobs, jobElements)
  {
    r := jobs;
    var i := 0;
    while i < |jobElements|
      invariant 0 <= i <= |jobElements|
      invariant r == ApplyJobs(table, requested, jobs, jobElements[..i])
    {
      r := ParseJob(table, requested, r, jobElements[i]);
      ApplyJobsExtend(table, requested, jobs, jobElements, i);
      i := i + 1;
    }
    assert jobElements[..i] == jobElements;
  }

  /** The job loop, one job element more. */
  lemma ApplyJobsExtend(table: FeatureTable, requested: string, jobs: map<JobCode, JobData>, jobElements: seq<Element>, i: int)
    requires 0 <= i < |jobElements|
    ensures ApplyJobs(table, requested, jobs, jobElements[..i + 1]) == ApplyJob(table, requested, ApplyJobs(table, requested, jobs, jobElements[..i]), jobElements[i])
  {
    assert jobElements[..i + 1][..i] == jobElements[..i];
  }

  /** One job skill per child, in order: its main skill and its subs, all Skill references at level 0. */
  lemma {:induction false} JobSkillsEntries(children: seq<Element>)
    ensures forall i :: 0 <= i < |children| ==> JobSkills(children)[i] == JobSkillOf(children[i])
    decreases |children|
  {
    if children != [] {
      var front := children[..|children| - 1];
      JobSkillsEntries(front);
      forall i | 0 <= i < |children|
        ensures JobSkills(children)[i] == JobSkillOf(children[i])
      {
        if i < |front| {
          assert JobSkills(children)[i] == JobSkills(front)[i] == JobSkillOf(front[i]);
        }
      }
    }
  }

  /** The sub-skill references are the listed ids, in list order, as Skill references at level 0. */
  lemma {:induction false} SubSkillsEntries(ids: seq<int>)
    ensures forall i :: 0 <= i < |ids| ==> SubSkills(ids)[i] == ReferenceData(Skill, ids[i], 0)
    decreases |ids|
  {
    if ids != [] {
      var front := ids[..|ids| - 1];
      SubSkillsEntries(front);
      forall i | 0 <= i < |ids|
        ensures SubSkills(ids)[i] == ReferenceData(Skill, ids[i], 0)
      {
        if i < |front| {
          assert front[i] == ids[i];
        }
      }
    }
  }

  /** Every record holds its own code, or None when the gate rejected it on its own slots. */
  predicate CodesConsistent(jobs: map<JobCode, JobData>)
  {
    forall code :: code in jobs ==> jobs[code].job == code || jobs[code].job == NoJob
  }

  /**
   * The job loop never creates a record for code None, removes no record, and keeps every
   * record's `job` field equal to its key or None.
   */
  lemma {:induction false} ApplyJobsKeys(table: FeatureTable, requested: string, jobs: map<JobCode, JobData>, jobElements: seq<Element>)
    requires CodesConsistent(jobs)
    ensures var r := ApplyJobs(table, requested, jobs, jobElements);
      && jobs.Keys <= r.Keys
      && (NoJob in r <==> NoJob in jobs)
      && CodesConsistent(r)
    decreases |jobElements|
  {
    if jobElements != [] {
      ApplyJobsKeys(table, requested, jobs, jobElements[..|jobElements| - 1]);
      ApplyJobKeys(table, requested, ApplyJobs(table, requested, jobs, jobElements[..|jobElements| - 1]), jobElements[|jobElements| - 1]);
    }
  }

  /** One round of the job loop keeps the properties of `ApplyJobsKeys`. */
  lemma ApplyJobKeys(table: FeatureTable, requested: string, jobs: map<JobCode, JobData>, jobElement: Element)
    requires CodesConsistent(jobs)
    ensures var r := ApplyJob(table, requested, jobs, jobElement);
      && jobs.Keys <= r.Keys
      && (NoJob in r <==> NoJob in jobs)
      && CodesConsistent(r)
  {
  }

  /** A job element that both gates accept leaves its record with its code and its skills rebuilt from scratch. */
  lemma AcceptedJobRebuildsSkills(table: FeatureTable, requested: string, jobs: map<JobCode, JobData>, jobElement: Element)
    requires IsNodeEnabled(table, requested, jobElement, FreshSettings, FreshSettings).enabled
    requires ReadInt(jobElement, "code", 0) != NoJob
    requires var job := JobOrEmpty(jobs, ReadInt(jobElement, "code", 0));
      IsNodeEnabled(table, requested, jobElement, job.feature, job.locale).enabled
    ensures var code := ReadInt(jobElement, "code", 0); var r := ApplyJob(table, requested, jobs, jobElement);
      && code in r && r[code].job == code
      && |r[code].skills| == (match FirstChildNamed(jobElement.children, "skills") case None => 0 case Some(s) => |s.children|)
      && r[code].name == JobOrEmpty(jobs, code).name && r[code].awakenedName == JobOrEmpty(jobs, code).awakenedName
  {
  }

  /** C's `/` on `int`: the quotient truncated toward zero. */
  function TruncatingDivide(a: int, b: int): int
    requires b > 0
  {
    if a >= 0 then a / b else -((-a) / b)
  }

  /**
   * The job code of a name key's id: ten times the code is the multiple of ten nearest the id on
   * the side of zero.
   */
  lemma TruncatingDivideByTen(id: int)
    ensures var code := TruncatingDivide(id, 10);
      && (id >= 0 ==> 0 <= id - 10 * code < 10)
      && (id < 0 ==> -10 < id - 10 * code <= 0)
  {
  }

  /** `isAwakening`: the id is not ten times its code. */
  predicate IsAwakening(id: int)
  {
    id != 10 * TruncatingDivide(id, 10)
  }

  /** An id names the awakened job exactly when it is not a multiple of ten, for negative ids too. */
  lemma AwakeningIffNotMultipleOfTen(id: int)
    ensures IsAwakening(id) <==> id % 10 != 0
  {
    if id < 0 {
      var q := (-id) / 10;
      assert -id == 10 * q + (-id) % 10;
    }
  }

  /** One key of the job-name file, gated with fresh slots: an existing job gets its name or its awakened name. */
  function NameJob(table: FeatureTable, requested: string, jobs: map<JobCode, JobData>, key: Element): map<JobCode, JobData>
  {
    if !IsNodeEnabled(table, requested, key, FreshSettings, FreshSettings).enabled then jobs
    else
      var id := ReadInt(key, "id", 0);
      var code := TruncatingDivide(id, 10);
      if code !in jobs then jobs
      else
        match FindAttribute(key, "name")
        case None => jobs
        case Some(name) =>
          if IsAwakening(id) then jobs[code := jobs[code].(awakenedName := name)]
          else jobs[code := jobs[code].(name := name)]
  }

  /** The job table after the name loop has seen `keys`. */
  function NameJobs(table: FeatureTable, requested: string, jobs: map<JobCode, JobData>, keys: seq<Element>): map<JobCode, JobData>
    decreases |keys|
  {
    if keys == [] then jobs
    else NameJob(table, requested, NameJobs(table, requested, jobs, keys[..|keys| - 1]), keys[|keys| - 1])
  }

  /** The store after the job-name file. */
  function JobStringsFileOf(table: FeatureTable, requested: string, store: Store, root: Element): Store
  {
    if IsNodeEnabled(table, requested, root, FreshSettings, FreshSettings).enabled
    then store.(jobs := NameJobs(table, requested, store.jobs, root.children))
    else store
  }

  /** The body of the name loop for one key: the fresh gate, then the name of the job it selects. */
  method NameJobKey(table: FeatureTable, requested: string, jobs: map<JobCode, JobData>, jobElement: Element)
    returns (r: map<JobCode, JobData>)
    ensures r == NameJob(table, requested, jobs, jobElement)
  {
    r := jobs;
    var jobVerdict := IsNodeEnabled(table, requested, jobElement, FreshSettings, FreshSettings);
    if !jobVerdict.enabled {
      return;
    }
    var jobCodeValue := ReadInt(jobElement, "id", 0);
    var jobCode := if jobCodeValue >= 0 then jobCodeValue / 10 else -((-jobCodeValue) / 10);
    var isAwakening := jobCodeValue != 10 * jobCode;
    if jobCode !in jobs {
      return;
    }
    var nameAttribute := FindAttribute(jobElement, "name");
    if nameAttribute.None? {
      return;
    }
    if isAwakening {
      r := jobs[jobCode := jobs[jobCode].(awakenedName := nameAttribute.value)];
    } else {
      r := jobs[jobCode := jobs[jobCode].(name := nameAttribute.value)];
    }
  }

  /** `ParseJobStrings`, with the root element, the feature table and the requested locale as parameters. */
  method ParseJobStrings(table: FeatureTable, requested: string, store: Store, root: Element) returns (result: Store)
    ensures result == JobStringsFileOf(table, requested, store, root)
  {
    result := store;
    var fileVerdict := IsNodeEnabled(table, requested, root, FreshSettings, FreshSettings);
    if !fileVerdict.enabled {
      return;
    }
    var jobs := NameJobList(table, requested, store.jobs, root.children);
    result := store.(jobs := jobs);
  }

  /** The key loop of `ParseJobStrings`. */
  method NameJobList(table: FeatureTable, requested: string, jobs: map<JobCode, JobData>, keys: seq<Element>)
    returns (r: map<JobCode, JobData>)
    ensures r == NameJobs(table, requested, jobs, keys)
  {
    r := jobs;
    var i := 0;
    while i < |keys|
      invariant 0 <= i <= |keys|
      invariant r == NameJobs(table, requested, jobs, keys[..i])
    {
      NameJobsExtend(table, requested, jobs, keys, i);
      r := NameJobKey(table, requested, r, keys[i]);
      i := i + 1;
    }
    assert keys[..i] == keys;
  }

  /** The name loop over one key more. */
  lemma NameJobsExtend(table: FeatureTable, requested: string, jobs: map<JobCode, JobData>, keys: seq<Element>, i: int)
    requires 0 <= i < |keys|
    ensures NameJobs(table, requested, jobs, keys[..i + 1]) == NameJob(table, requested, NameJobs(table, requested, jobs, keys[..i]), keys[i])
  {
    assert keys[..i + 1][..i] == keys[..i];
  }

  /** The name loop creates no job and changes nothing but names and awakened names. */
  lemma {:induction false} NameJobsOnlyNames(table: FeatureTable, requested: string, jobs: map<JobCode, JobData>, keys: seq<Element>)
    ensures var r := NameJobs(table, requested, jobs, keys);
      && r.Keys == jobs.Keys
      && forall code :: code in jobs ==> r[code] == jobs[code].(name := r[code].name, awakenedName := r[code].awakenedName)
    decreases |keys|
  {
    if keys != [] {
      NameJobsOnlyNames(table, requested, jobs, keys[..|keys| - 1]);
      NameJobOnlyNames(table, requested, NameJobs(table, requested, jobs, keys[..|keys| - 1]), keys[|keys| - 1]);
    }
  }

  /** One key of the name loop, for `NameJobsOnlyNames`. */
  lemma NameJobOnlyNames(table: FeatureTable, requested: string, jobs: map<JobCode, JobData>, key: Element)
    ensures var r := NameJob(table, requested, jobs, key);
      && r.Keys == jobs.Keys
      && forall code :: code in jobs ==> r[code] == jobs[code].(name := r[code].name, awakenedName := r[code].awakenedName)
  {
  }
}
