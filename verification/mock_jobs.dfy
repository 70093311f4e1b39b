/** The job-search action's fallback: `getMockJobResults` picks sample jobs
    by the words of a query. */
module MockJobSearch {
  import opened Text
  import opened Seqs

  datatype MockJob = MockJob(title: string, company: string, location: string, description: string,
                             link: string, source: string, relevanceScore: int)

  // The six sample jobs; their posting dates, computed from the clock, are
  // not modelled.
  const Sample1 := MockJob("Software Engineering Internship", "Google", "Mountain View, CA",
      "Join our tech internship program in Silicon Valley. Work on real projects with cutting-edge technology and learn from industry experts.",
      "https://example.com/job/1", "LinkedIn", 95)
  const Sample2 := MockJob("Tech Internship - Frontend Development", "Meta", "Menlo Park, CA",
      "Summer tech internship opportunity in Silicon Valley. Build user interfaces for billions of users using React and modern web technologies.",
      "https://example.com/job/2", "Indeed", 92)
  const Sample3 := MockJob("Senior Software Engineer", "TechCorp Inc.", "San Francisco, CA",
      "We're looking for a senior software engineer to join our growing team. You'll work on cutting-edge projects and collaborate with talented engineers.",
      "https://example.com/job/3", "LinkedIn", 88)
  const Sample4 := MockJob("Full Stack Developer", "StartupXYZ", "Remote",
      "Join our fast-growing startup as a full stack developer. Work with modern technologies and help build the next generation of web applications.",
      "https://example.com/job/4", "Indeed", 85)
  const Sample5 := MockJob("Data Science Internship", "Apple", "Cupertino, CA",
      "Summer internship in Silicon Valley working on machine learning and data analytics projects. Perfect for students interested in AI and tech.",
      "https://example.com/job/5", "Glassdoor", 90)
  const Sample6 := MockJob("Backend Engineer", "DataFlow Systems", "Austin, TX",
      "Looking for a backend engineer to work on our scalable data processing systems. Experience with Python, Go, or Java required.",
      "https://example.com/job/6", "AngelList", 82)

  const MockJobs: seq<MockJob> := [Sample1, Sample2, Sample3, Sample4, Sample5, Sample6]

  const MockKeywords: seq<string> := ["job", "jobs", "engineer", "developer", "tech", "software", "frontend", "backend", "devops", "internship", "intern"]

  predicate LongWord(w: string) { |w| > 2 }

  /** The lower-cased white-space-separated words of the query longer than
      two characters. */
  function QueryWords(query: string): (ws: seq<string>)
    ensures forall i :: 0 <= i < |ws| ==> |ws[i]| > 2
  {
    Filter(Words(ToLower(query)), LongWord)
  }

  function JobText(job: MockJob): string {
    ToLower(job.title + " " + job.company + " " + job.description + " " + job.location)
  }

  /** A sample job some query word occurs in; every job when there are no
      words. */
  predicate Relevant(job: MockJob, words: seq<string>) {
    |words| == 0 || exists w :: w in words && Contains(JobText(job), w)
  }

  /** The relevance test for fixed words, as a filter. */
  function RelevantTo(words: seq<string>): MockJob -> bool {
    job => Relevant(job, words)
  }

  /** `getMockJobResults`. */
  function GetMockJobResults(query: string): (r: seq<MockJob>)
    ensures |r| <= 5
    ensures forall i :: 0 <= i < |r| ==> r[i] in MockJobs
    ensures var words := QueryWords(query);
            (exists w :: w in words && w in MockKeywords) || |words| == 0 ==>
              (forall i :: 0 <= i < |r| ==> Relevant(r[i], words)) &&
              (|r| < 5 ==> forall j :: j in MockJobs && Relevant(j, words) ==> j in r) &&
              exists k :: 0 <= k <= |MockJobs| && r == Filter(MockJobs[..k], RelevantTo(words))
    ensures var words := QueryWords(query);
            !(exists w :: w in words && w in MockKeywords) && |words| > 0 ==> r == MockJobs[..3]
  {
    var words := QueryWords(query);
    if (exists w :: w in words && w in MockKeywords) || |words| == 0 then FirstRelevant(MockJobs, words)
    else MockJobs[..3]
  }

  /** At most the first five jobs of the list the words are relevant to:
      all of them when there are fewer than five, and in the list's order,
      as every relevant job of some prefix of the list. */
  function FirstRelevant(jobs: seq<MockJob>, words: seq<string>): (r: seq<MockJob>)
    ensures |r| <= 5
    ensures forall i :: 0 <= i < |r| ==> r[i] in jobs && Relevant(r[i], words)
    ensures |r| < 5 ==> forall j :: j in jobs && Relevant(j, words) ==> j in r
    ensures exists k :: 0 <= k <= |jobs| && r == Filter(jobs[..k], RelevantTo(words))
  {
    var relevant := Filter(jobs, RelevantTo(words));
    var n := if |relevant| <= 5 then |relevant| else 5;
    FilterPrefix(jobs, RelevantTo(words), n);
    relevant[..n]
  }

  /** A query without long words gets the first five sample jobs. */
  lemma NoWordsGivesTheFirstFive(query: string)
    requires |QueryWords(query)| == 0
    ensures GetMockJobResults(query) == MockJobs[..5]
  {
    var words := QueryWords(query);
    FilterAll(MockJobs, RelevantTo(words));
  }
}
