/**
 * The shared content store: the list of interviews, the signed-in user and
 * the application settings, with copy-on-write updates and a mock sign-in.
 */
module DataContext {
  import opened Wrappers
  import opened Text
  import opened Sequences
  import opened Entities

  /** The three plans the store starts with, each offered at half price. */
  const DefaultPlans: seq<SubscriptionPlan> := [
    SubscriptionPlan(
      "plan-micro", "Social Solo (Article / Individual Reel)", 1998, 50,
      ["Single Editorial Article", "Instagram Reels Unit", "YouTube Shorts Unit", "LinkedIn Post Unit"]),
    SubscriptionPlan(
      "plan-creator", "Video Creator (Videos + Reels + YT)", 3998, 50,
      ["Full Video Pitch", "All Social Reels", "YouTube Video Upload", "Multi-channel Distribution"]),
    SubscriptionPlan(
      "plan-publisher", "Authority (Articles + All Video Channels)", 9998, 50,
      ["Premium Feature Articles", "Complete Video Studio Access", "All Distribution Channels", "Priority PR Support"])
  ]

  /** A broadcast may last 1800 seconds (30 minutes) until an admin changes it. */
  const InitialSettings: AppSettings := AppSettings(1800, DefaultPlans)

  const AdminAvatar := "https://images.unsplash.com/photo-1472099645785-5658abf4ff4e?q=80&w=200&auto=format&fit=crop"
  const FounderAvatar := "https://images.unsplash.com/photo-1494790108377-be9c29b29330?q=80&w=200&auto=format&fit=crop"

  /** The initial settings: 30 minutes of broadcast, three plans at 50% off. */
  lemma InitialSettingsFacts()
    ensures InitialSettings.maxLiveDuration == 1800
    ensures |InitialSettings.subscriptionPlans| == 3
    ensures forall p :: p in InitialSettings.subscriptionPlans ==> p.discountPercentage == 50
  {
  }

  /** Merge-by-id: every item with the id takes the update, the others stay. */
  function UpdatedById(xs: seq<Interview>, id: string, p: InterviewPatch): (r: seq<Interview>)
    ensures |r| == |xs|
    ensures forall k :: 0 <= k < |xs| && xs[k].id == id ==> r[k] == Merge(xs[k], p)
    ensures forall k :: 0 <= k < |xs| && xs[k].id != id ==> r[k] == xs[k]
  {
    if xs == [] then []
    else [if xs[0].id == id then Merge(xs[0], p) else xs[0]] + UpdatedById(xs[1..], id, p)
  }

  /** An update aimed at an id nobody has leaves the list as it was. */
  lemma UpdateAbsentId(xs: seq<Interview>, id: string, p: InterviewPatch)
    requires !HasId(xs, id)
    ensures UpdatedById(xs, id, p) == xs
  {
  }

  /** Delete-by-id: the items with other ids, in order. */
  function WithoutId(xs: seq<Interview>, id: string): seq<Interview>
  {
    if xs == [] then []
    else (if xs[0].id != id then [xs[0]] else []) + WithoutId(xs[1..], id)
  }

  /**
   * No item with the id remains, every other item remains, in the original
   * order, and nothing changes when the id is absent.
   */
  lemma {:induction false} WithoutIdSpec(xs: seq<Interview>, id: string)
    ensures !HasId(WithoutId(xs, id), id)
    ensures forall x :: x in xs && x.id != id ==> x in WithoutId(xs, id)
    ensures Subsequence(WithoutId(xs, id), xs)
    ensures !HasId(xs, id) ==> WithoutId(xs, id) == xs
  {
    if xs != [] {
      var rest := WithoutId(xs[1..], id);
      WithoutIdSpec(xs[1..], id);
      assert xs == [xs[0]] + xs[1..];
      if xs[0].id != id {
        assert WithoutId(xs, id) == [xs[0]] + rest;
        SubsequenceCons(xs[0], rest, xs[1..]);
        assert !HasId(xs, id) ==> !HasId(xs[1..], id) by {
          if !HasId(xs, id) {
            forall k | 0 <= k < |xs[1..]| ensures xs[1..][k].id != id {
              assert xs[1..][k] == xs[k + 1];
            }
          }
        }
      } else {
        assert WithoutId(xs, id) == rest;
        SubsequenceSkip(xs[0], rest, xs[1..]);
      }
    }
  }

  lemma ConcatTail(a: seq<Interview>, b: seq<Interview>)
    requires a != []
    ensures (a + b)[0] == a[0] && (a + b)[1..] == a[1..] + b
  {
  }

  /** Deleting distributes over concatenation, so deletion keeps the order of the rest. */
  lemma {:induction false} WithoutIdConcat(a: seq<Interview>, b: seq<Interview>, id: string)
    ensures WithoutId(a + b, id) == WithoutId(a, id) + WithoutId(b, id)
    decreases |a|
  {
    if a == [] {
      assert a + b == b;
    } else {
      var keep := if a[0].id != id then [a[0]] else [];
      var l, r, t := WithoutId(a[1..] + b, id), WithoutId(a[1..], id), WithoutId(b, id);
      assert WithoutId(a + b, id) == keep + l by {
        ConcatTail(a, b);
      }
      assert WithoutId(a, id) == keep + r;
      assert l == r + t by {
        WithoutIdConcat(a[1..], b, id);
      }
      assert keep + (r + t) == (keep + r) + t;
    }
  }

  /** Adding an item with a fresh id and then deleting that id restores the list. */
  lemma AddThenDelete(xs: seq<Interview>, x: Interview)
    requires !HasId(xs, x.id)
    ensures WithoutId([x] + xs, x.id) == xs
  {
    assert ([x] + xs)[1..] == xs;
    WithoutIdSpec(xs, x.id);
  }

  /** `{ ...s, ...p }` on the settings. */
  function MergeSettings(s: AppSettings, p: SettingsPatch): (r: AppSettings)
    ensures p.maxLiveDuration.Put? ==> r.maxLiveDuration == p.maxLiveDuration.value
    ensures p.maxLiveDuration.Keep? ==> r.maxLiveDuration == s.maxLiveDuration
    ensures p.subscriptionPlans.Put? ==> r.subscriptionPlans == p.subscriptionPlans.value
    ensures p.subscriptionPlans.Keep? ==> r.subscriptionPlans == s.subscriptionPlans
  {
    AppSettings(
      Pick(p.maxLiveDuration, s.maxLiveDuration),
      Pick(p.subscriptionPlans, s.subscriptionPlans))
  }

  /**
   * The mock sign-in: an e-mail containing "admin" signs in the fixed admin
   * account, any other e-mail a founder of Nebula AI. `stamp` stands for the
   * clock reading that makes the founder's id.
   */
  function SignedInUser(email: string, stamp: string): (u: User)
    ensures u.email == email
    ensures u.role == Admin <==> Contains(email, "admin")
    ensures u.role == Admin ==> u.id == "admin-1" && u.name == "Admin User" && u.company == None
    ensures u.role == Founder ==>
              u.id == "user-" + stamp && u.name == "Elena Rostova" && u.company == Some("Nebula AI")
  {
    if Contains(email, "admin") then
      User("admin-1", "Admin User", email, AdminAvatar, Admin, None)
    else
      User("user-" + stamp, "Elena Rostova", email, FounderAvatar, Founder, Some("Nebula AI"))
  }

  /**
   * The user a registration creates: always a founder with exactly the given
   * name, e-mail and company. `encodedName` is `encodeURIComponent(name)`.
   */
  function RegisteredUser(name: string, email: string, company: string, stamp: string, encodedName: string): (u: User)
    ensures u.role == Founder
    ensures u.name == name && u.email == email && u.company == Some(company)
    ensures u.id == "user-" + stamp
  {
    User("user-" + stamp, name, email,
         "https://ui-avatars.com/api/?name=" + encodedName + "&background=random",
         Founder, Some(company))
  }

  /** The store that every page reads and updates. */
  class Store {
    var interviews: seq<Interview>
    var currentUser: Option<User>
    var appSettings: AppSettings

    /** `seed` stands for the mock interviews the store starts with. */
    constructor (seed: seq<Interview>)
      ensures interviews == seed
      ensures currentUser == None
      ensures appSettings == InitialSettings
    {
      interviews := seed;
      currentUser := None;
      appSettings := InitialSettings;
    }

    method AddInterview(x: Interview)
      modifies this
      ensures interviews == [x] + old(interviews)
      ensures currentUser == old(currentUser) && appSettings == old(appSettings)
    {
      interviews := [x] + interviews;
    }

    method UpdateInterview(id: string, p: InterviewPatch)
      modifies this
      ensures interviews == UpdatedById(old(interviews), id, p)
      ensures currentUser == old(currentUser) && appSettings == old(appSettings)
    {
      interviews := UpdatedById(interviews, id, p);
    }

    method DeleteInterview(id: string)
      modifies this
      ensures interviews == WithoutId(old(interviews), id)
      ensures currentUser == old(currentUser) && appSettings == old(appSettings)
    {
      interviews := WithoutId(interviews, id);
    }

    method UpdateAppSettings(p: SettingsPatch)
      modifies this
      ensures appSettings == MergeSettings(old(appSettings), p)
      ensures interviews == old(interviews) && currentUser == old(currentUser)
    {
      appSettings := MergeSettings(appSettings, p);
    }

    /** Always succeeds. */
    method Login(email: string, stamp: string) returns (ok: bool)
      modifies this
      ensures ok
      ensures currentUser == Some(SignedInUser(email, stamp))
      ensures interviews == old(interviews) && appSettings == old(appSettings)
    {
      currentUser := Some(SignedInUser(email, stamp));
      ok := true;
    }

    method Register(name: string, email: string, company: string, stamp: string, encodedName: string)
      modifies this
      ensures currentUser == Some(RegisteredUser(name, email, company, stamp, encodedName))
      ensures interviews == old(interviews) && appSettings == old(appSettings)
    {
      currentUser := Some(RegisteredUser(name, email, company, stamp, encodedName));
    }

    method Logout()
      modifies this
      ensures currentUser == None
      ensures interviews == old(interviews) && appSettings == old(appSettings)
    {
      currentUser := None;
    }
  }
}
