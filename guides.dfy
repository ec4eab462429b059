/** The static guide catalog and its lookup (main.py:136-219). */
module Guides {
  import opened Outcomes
  import Schemas

  datatype Guide = Guide(title: string, summary: string, cost: string, time: string,
                         official: string, steps: seq<string>)

  /** `GUIDES`: five fixed entries keyed by document type. */
  const GuideTable: map<string, Guide> := map[
    "aadhaar" := Guide(
      "Get your Aadhaar Number",
      "A step-by-step guide to enrol for Aadhaar.",
      "Free for first-time enrolment",
      "Usually a few weeks; up to 180 days",
      "https://myaadhaar.uidai.gov.in/",
      ["Find a nearby Aadhaar Enrolment Centre.",
       "Fill the enrolment form.",
       "Show original ID and address proofs. They will be scanned and returned.",
       "Give photo, fingerprints, and iris scans.",
       "Check your details on the screen.",
       "Keep the acknowledgement slip with EID to track.",
       "Download e-Aadhaar when ready."]),
    "pan" := Guide(
      "Get your PAN",
      "Apply online for a Permanent Account Number (PAN).",
      "Instant e-PAN: Free; Regular: ~₹101–₹107",
      "Instant in minutes (e-PAN) or ~15–20 days",
      "https://www.incometax.gov.in/",
      ["Choose Instant e-PAN or Regular PAN.",
       "Fill Form 49A (online).",
       "Pay the fee if required.",
       "Use Aadhaar e-KYC if possible (no paperwork).",
       "If not e-KYC, print, sign, and post the form.",
       "Get e-PAN by email; physical card comes by post."]),
    "dl" := Guide(
      "Get a Driving Licence",
      "Apply for a Learner's Licence, then take a driving test.",
      "Varies by State; ~₹200–₹500 for LL; ₹700–₹1,500 for DL",
      "LL: same day after test; DL: after road test",
      "https://sarathi.parivahan.gov.in/",
      ["Apply online for Learner's Licence.",
       "Upload documents and pay the fee.",
       "Book and pass the online test.",
       "Wait 30 days or more.",
       "Apply for Driving Licence and book road test.",
       "Take the test at the RTO. Bring originals."]),
    "voter" := Guide(
      "Register for Voter ID",
      "Add your name to the electoral roll (Form 6).",
      "Free",
      "~30 days to 2 months",
      "https://voters.eci.gov.in/",
      ["Log in to the Voter Services Portal.",
       "Choose Form 6 and fill your details.",
       "Upload photo, ID, address and age proof.",
       "Submit and keep the reference number.",
       "BLO may visit your home for verification.",
       "Get your EPIC after approval."]),
    "passport" := Guide(
      "Get a Passport",
      "Create an account and book an appointment at a PSK.",
      "Normal: ₹1,500 (36 pages); Tatkaal: ₹3,500",
      "Normal: 15–30 days; Tatkaal: 7–14 days",
      "https://passportindia.gov.in/",
      ["Create account at Passport Seva.",
       "Fill application and pay the fee.",
       "Book appointment at PSK/POPSK.",
       "Visit with originals. Biometrics will be taken.",
       "Police Verification will happen.",
       "Passport will be printed and sent by post."])
  ]

  /** `get_guide`: the guide for `key`, or `NotFound`. */
  function GetGuide(key: string): (r: Result<Guide>)
    ensures r.Err? <==> key !in {"aadhaar", "pan", "dl", "voter", "passport"}
    ensures r.Err? ==> r.error == NotFound
    ensures r.Ok? ==> key in GuideTable && r.value == GuideTable[key]
  {
    if key !in GuideTable then Err(NotFound) else Ok(GuideTable[key])
  }

  /** Every application document type has a guide, and nothing else has one. */
  lemma GuideKeysAreDocTypes()
    ensures GuideTable.Keys == Schemas.DocTypes
  {
  }

  /** The PAN guide has six steps and links to the income-tax portal. */
  lemma PanGuide()
    ensures GetGuide("pan").Ok?
    ensures |GetGuide("pan").value.steps| == 6
    ensures GetGuide("pan").value.official == "https://www.incometax.gov.in/"
  {
  }

  /** The Aadhaar guide has seven steps; each of the other four has six. */
  lemma GuideStepCounts()
    ensures |GuideTable["aadhaar"].steps| == 7
    ensures forall k :: k in GuideTable && k != "aadhaar" ==> |GuideTable[k].steps| == 6
  {
  }
}
