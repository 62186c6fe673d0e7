TestResult.DisplayName,TestResult.Outcome,TestResult.Duration,TestResult.ResourceCount,RandomSeed
Events.ReadRefusal (well-formedness),Passed,00:00:00.4236765,826131,1
